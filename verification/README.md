# babel-plugin-css-in-js: a Dafny model of the build-time core

babel-plugin-css-in-js turns `cssInJS({...})` calls in JavaScript source into
class-name maps and emits the matching CSS at build time. This project models
the pure core of that pipeline and proves properties about it:

- **StyleSheetObject** (`src/transformObjectExpressionIntoStyleSheetObject.js`, and the
  identical copy plus the dispatcher in `src/transformIntoStyleSheetObject.js`):
  the object expression written in the source becomes a plain style-sheet
  object. Literals and context-evaluable expressions are evaluated, nested
  objects become nested maps, `-literal` is negated, and everything else is
  rejected with the source's error kinds. Evaluation is a parameter of the
  context.
- **SpecificationToCss** (`src/transformSpecificationIntoCSS.js`): the CSS
  generator walks a Specification tree (rules, selector fragments, media
  queries, parent selectors) and emits indented lines joined by `"\n"`.
  Class-name generation and rule serialisation are parameters.
- **ClassNameCache** (`src/compressClassName.js`): compressed class names
  are the tokens `"_" + reverse(base36(n))`, where `n` is the number of keys
  the selected cache (memory, or disk under `cacheDir`) already held. Caches
  are values threaded through the calls.
- **BuildCss** (`src/buildCSS.js`): the stylesheets are concatenated, empty
  output returns at once, and otherwise the output is vendor-prefixed and then
  minified. Both post-processors are parameters.
- **OrderedMap**: JavaScript objects with insertion order. Assigning to a
  present key keeps its position, and a new key is appended.

Modules `*Properties` hold the lemmas, and `StyleSheetObjectContents` states
which value each extracted name holds and in what order the names appear. `StyleSheetObjectExamples` replays the
inputs of the extractor's test suite, with the evaluator constrained only on
the expressions each example uses. The large nested input of that suite is
represented by its `test 1` → `test2` fragment, the deepest nesting it has.

## Model

| member | source | states |
|---|---|---|
| OrderedMap.Assign | src/transformObjectExpressionIntoStyleSheetObject.js:55 | `result[name] = v`: the key set grows by exactly `name`; a present key keeps its position (length unchanged); a new key is appended at the end; every other entry is untouched; unique keys stay unique |
| OrderedMap.AssignThenGet | src/transformObjectExpressionIntoStyleSheetObject.js:55 | after assigning, the key reads back the new value and every other key reads as before |
| ClassNameCache.ToBase36 | src/compressClassName.js:22 | `n.toString(36)` is a non-empty string of lower-case base-36 digits with no leading zero |
| ClassNameCache.Base36RoundTrip | src/compressClassName.js:22 | reading the base-36 rendering back gives the number |
| ClassNameCache.Reverse | src/compressClassName.js:22 | `split('').reverse().join('')` keeps the length and mirrors every index |
| ClassNameCache.ReverseInvolution | src/compressClassName.js:22 | reversing twice is the identity |
| ClassNameCache.TokenShape | src/compressClassName.js:22 | every token is `_` followed by at least one base-36 digit |
| ClassNameCache.TokenRoundTrip | src/compressClassName.js:22 | a token decodes to the key count it was built from |
| ClassNameCache.TokenInjective | src/compressClassName.js:22 | two tokens are equal exactly when their key counts are |
| ClassNameCache.FirstTokens | src/compressClassName.js:22 | counts 0, 1, 2, 35, 36, 37 give `_0`, `_1`, `_2`, `_z`, `_01`, `_11` (digits reversed) |
| ClassNameCache.Fetch | src/compressClassName.js:21-23 | a known key returns its stored token and leaves the cache alone; an unknown key gets `compute(existing keys)` and is appended; the key-to-token table stays consistent with the key list |
| ClassNameCache.FetchIdempotent | src/compressClassName.js:21-23 | a second fetch of the same key returns the same token and changes nothing, whatever callback it is given |
| ClassNameCache.CompressKeepsPositions | src/compressClassName.js:18-24 | in a cache filled only by compression, every key keeps the token of its insertion position |
| ClassNameCache.NoCollisions | src/compressClassName.js:18-24 | in such a cache two different class names never share a token |
| ClassNameCache.GetCache | src/compressClassName.js:6-12 | a truthy `cacheDir` selects the disk cache rooted there, anything else the memory cache; both use the namespace `classnames` |
| ClassNameCache.ClearCache | src/compressClassName.js:14-16 | the selected cache becomes empty and every other cache is unchanged |
| ClassNameCache.CompressClassName | src/compressClassName.js:18-24 | a name already cached gets its token back; a new name gets the token of the current key count; caches other than the selected one are unchanged |
| ClassNameCache.CompressedNameShape | src/compressClassName.js:18-24 | every compressed class name is `_` followed by base-36 digits |
| ClassNameCache.CompressIdempotent | src/compressClassName.js:18-24 | compressing a name again returns the same token and leaves the store as it was |
| ClassNameCache.CompressAllUsesOneCache | src/compressClassName.js:18-24 | a run of compressions hands out exactly the tokens that fetching the names from the selected cache alone would |
| ClassNameCache.FetchFreshNames | src/compressClassName.js:21-23 | distinct new names fetched from a compression-filled cache of `n` keys get `Token(n)`, `Token(n+1)`, ... in order |
| ClassNameCache.CompressFreshNames | src/compressClassName.js:18-24 | in a cache of `n` keys, distinct new names get `Token(n)`, `Token(n+1)`, ... in first-use order |
| ClassNameCache.FetchAllPositions | src/compressClassName.js:18-24 | a run of compressions keeps every key on the token of its position |
| ClassNameCache.FetchAllKeys | src/compressClassName.js:21-23 | a run of fetches, repeats included, appends each name the cache lacked once, in the order of its first use |
| ClassNameCache.FetchAllKeepsTokens | src/compressClassName.js:21-23 | a run of fetches never changes a token already handed out |
| ClassNameCache.FetchAllReturns | src/compressClassName.js:21-23 | each fetch of a run returns the token the final cache holds for its name, so a repeated name gets the same token every time |
| ClassNameCache.FetchAllFromEmpty | src/compressClassName.js:21-23 | from an empty cache, the i-th name of a run gets `Token(j)`, where `j` is the position of that name among the run's names in first-use order |
| ClassNameCache.ClearedCacheSequence | test/index.js:82-106 | after `clearCache`, the i-th name of any run of compressions, repeats included, becomes `Token(j)`, where `j` is the position of that name among the names in first-use order |
| ClassNameCache.RepeatedNamesExample | test/index.js:86-105 | one rendering compresses `foo`, `bar`, `xyz` when it replaces the calls and again when it writes the selectors, which gives `_0 _1 _2 _0 _1 _2` |
| ClassNameCache.MemoryAndDiskAgree | test/index.js:88-126 | after a clear, the memory cache and a disk cache are distinct caches that hand out the same tokens for any run of names, repeats included |
| ClassNameCache.Token | src/compressClassName.js:22 | `'_' + keys.length.toString(36)` reversed; its contract is stated by TokenShape, TokenRoundTrip, TokenInjective and FirstTokens |
| ClassNameCache.CompressAll | src/compressClassName.js:18-24 | the repeated calls of compressClassName, one token per name; its contract is stated by CompressAllUsesOneCache, CompressFreshNames and ClearedCacheSequence |
| SpecificationToCss.Indent | src/transformSpecificationIntoCSS.js:88-96 | `indent(level)` is exactly `2 * level` spaces |
| SpecificationToCss.RuleLines | src/transformSpecificationIntoCSS.js:36-38 | one line per rule, in rule order, each the indent followed by the serialised rule |
| SpecificationToCss.RuleBlock | src/transformSpecificationIntoCSS.js:22-41 | no rules give no lines; otherwise the selector line `indent + selector + " {"`, one line per rule one level deeper, and `indent + "}"` |
| SpecificationToCss.StyleLines | src/transformSpecificationIntoCSS.js:15-20 | `processStyle`: the rule block, then the selector blocks, media queries and parents; its contract is stated by StyleLinesEmpty, StyleLinesIndented and FirstLineIsRuleBlock |
| SpecificationToCss.SelectorLines | src/transformSpecificationIntoCSS.js:43-49 | `processSelectors`; its contract is stated by SelectorLinesFlatten, OneSelector, SelectorLinesEmpty, SelectorLinesBlocks, SelectorLinesIndented and SelectorsInMapOrder |
| SpecificationToCss.MediaQueryLines | src/transformSpecificationIntoCSS.js:67-78 | `processMediaQuery`; its contract is stated by MediaQueryElision and MediaQueryIndented |
| SpecificationToCss.MediaQueriesLines | src/transformSpecificationIntoCSS.js:51-57 | `processMediaQueries`; its contract is stated by MediaQueriesLinesEmpty and MediaQueriesLinesIndented |
| SpecificationToCss.ParentsLines | src/transformSpecificationIntoCSS.js:59-65 | `processParents`; its contract is stated by OneParent, ParentsInMapOrder and NestedParentReplacesOuter |
| SpecificationToCss.ParentBlocks | src/transformSpecificationIntoCSS.js:59-65 | one block per parents entry, in map order: the whole style again at the same level, with the entry's key as the active parent |
| SpecificationToCss.TransformSpecificationIntoCss | src/transformSpecificationIntoCSS.js:5-13 | `transformSpecificationIntoCSS`; its contract is stated by CssIsJoinedLines and StylesInMapOrder |
| SpecificationToCss.MediaQueryName | src/transformSpecificationIntoCSS.js:80-86 | a present, non-empty `mediaMap` alias replaces the name; an absent or empty alias leaves the name unchanged |
| SpecificationToCssProperties.StylesInMapOrder | src/transformSpecificationIntoCSS.js:8-10 | the CSS of two runs of styles is the CSS of each run, in map order |
| SpecificationToCssProperties.SelectorsInMapOrder | src/transformSpecificationIntoCSS.js:43-49 | the selector blocks of two runs of fragments are those of each run, in map order |
| SpecificationToCssProperties.SelectorLinesFlatten | src/transformSpecificationIntoCSS.js:43-49 | the selector output is the rule blocks of the entries, one after the other |
| SpecificationToCssProperties.OneSelector | src/transformSpecificationIntoCSS.js:46-48 | a selector entry emits the rule block of `name + fragment` (no space between them), at the same level and under the same parent |
| SpecificationToCssProperties.ParentsInMapOrder | src/transformSpecificationIntoCSS.js:59-65 | the parent blocks of two runs of parents entries are those of each run, in map order |
| SpecificationToCssProperties.OneParent | src/transformSpecificationIntoCSS.js:62-64 | a parents entry emits the whole style again at the same level, with the entry's key as the active parent |
| SpecificationToCssProperties.FirstLineIsRuleBlock | src/transformSpecificationIntoCSS.js:15-20 | a style with rules opens with the selector line of its own rule block, before selectors, media queries and parents |
| SpecificationToCssProperties.SelectorLinesEmpty | src/transformSpecificationIntoCSS.js:43-49 | selector fragments emit nothing exactly when every fragment has no rules |
| SpecificationToCssProperties.SelectorLinesBlocks | src/transformSpecificationIntoCSS.js:43-49 | selector fragments emit nothing or at least one whole block (three lines or more) |
| SpecificationToCssProperties.MediaQueryElision | src/transformSpecificationIntoCSS.js:67-78 | a media query emits nothing exactly when its rules and selectors emit nothing; otherwise `@name {`, a body indented one level deeper, and `}` |
| SpecificationToCssProperties.MediaQueriesLinesEmpty | src/transformSpecificationIntoCSS.js:51-57 | the media queries emit nothing exactly when every one of them is empty |
| SpecificationToCssProperties.StyleLinesEmpty | src/transformSpecificationIntoCSS.js:15-20 | a style emits no line exactly when it is silent (no rules, no selector rules, only empty media queries, only silent parents) |
| SpecificationToCssProperties.EmptySpecEmitsNothing | src/transformSpecificationIntoCSS.js:98-100 | a style with all four maps empty emits nothing |
| SpecificationToCssProperties.RuleBlockIndented | src/transformSpecificationIntoCSS.js:34-40 | every line of a rule block starts with the block's indent |
| SpecificationToCssProperties.SelectorLinesIndented | src/transformSpecificationIntoCSS.js:43-49 | every selector line starts with the style's indent |
| SpecificationToCssProperties.MediaQueryIndented | src/transformSpecificationIntoCSS.js:67-78 | every line of one media block starts with the query's indent |
| SpecificationToCssProperties.MediaQueriesLinesIndented | src/transformSpecificationIntoCSS.js:67-78 | every media-query line starts with the style's indent |
| SpecificationToCssProperties.StyleLinesIndented | src/transformSpecificationIntoCSS.js:15-20 | every line a style emits, parents included, starts with the style's indent |
| SpecificationToCssProperties.GlobalSelectorText | src/transformSpecificationIntoCSS.js:27-28 | a `$name` style uses `name` literally, and `$name + fragment` uses `name + fragment` |
| SpecificationToCssProperties.ParentScopedSelector | src/transformSpecificationIntoCSS.js:29-32 | a class selector is `.className`, preceded by `parent + " "` when the parent is non-empty and by nothing when it is empty |
| SpecificationToCssProperties.GlobalStyleIgnoresParentAndClassName | src/transformSpecificationIntoCSS.js:27-32 | a global style's CSS depends neither on the active parent nor on the class-name generator |
| SpecificationToCssProperties.NestedParentReplacesOuter | src/transformSpecificationIntoCSS.js:59-65 | a parents entry opens its block with its own key alone, whatever parent was active around it |
| SpecificationToCssProperties.MediaMapAliases | test/transformSpecificationIntoCSS.js:109-152 | `mobile` and `tablet` resolve to their aliases; an unmapped query and an empty alias keep the query name |
| SpecificationToCssProperties.SplitJoin | src/transformSpecificationIntoCSS.js:12 | splitting the `"\n"`-joined lines at newlines gives the lines back, when no line holds a newline |
| SpecificationToCssProperties.CssIsJoinedLines | src/transformSpecificationIntoCSS.js:5-13 | the CSS text is empty when no line is emitted and otherwise splits back into exactly the emitted lines |
| SpecificationToCssProperties.ExampleFooBlock | test/transformSpecificationIntoCSS.js:216-245 | `{foo: {rules: {margin: 0}}}` renders as `.foo {`, `  margin: 0px;`, `}` |
| SpecificationToCssProperties.ExampleFooMediaBlock | test/transformSpecificationIntoCSS.js:216-245 | the media query `media1` renders as `@media1 {` with the nested `.foo` block and `}` |
| SpecificationToCssProperties.EmptyMediaQueryExample | test/transformSpecificationIntoCSS.js:216-245 | the empty media query `media2` leaves no `@media2` block: the output is the `.foo` block and the `@media1` block only |
| SpecificationToCssProperties.GlobalStyleExample | src/transformSpecificationIntoCSS.js:27-28 | `{$body: {rules: {border: ...}}}` renders as `body {\n  border: solid 1px black;\n}` |
| StyleSheetObject.IsBlank | src/transformObjectExpressionIntoStyleSheetObject.js:7 | `/^\s*$/`: every character is JavaScript whitespace; used by CheckEvaluated and BlankValueExample |
| StyleSheetObject.CanEvaluate | src/transformObjectExpressionIntoStyleSheetObject.js:75-87 | `canEvaluate`; its contract is stated by CanEvaluateIff, CanEvaluateMonotone and EmptyContextEvaluates |
| StyleSheetObject.ProcessValue | src/transformObjectExpressionIntoStyleSheetObject.js:46-66 | the value branch of `processProperty`; its contract is stated by ProcessValueSucceeds and ProcessValueWellFormed |
| StyleSheetObject.ProcessProperty | src/transformObjectExpressionIntoStyleSheetObject.js:43-67 | `processProperty`; its contract is stated by ProcessPropertySucceeds and ProcessPropertyKeys |
| StyleSheetObject.ProcessProperties | src/transformObjectExpressionIntoStyleSheetObject.js:37-41 | `processProperties`; its contract is stated by ProcessPropertiesSucceeds, ProcessPropertiesKeys, ProcessPropertiesOrder and ProcessPropertiesValues |
| StyleSheetObject.ProcessTopLevelProperty | src/transformObjectExpressionIntoStyleSheetObject.js:27-35 | `processTopLevelProperty`; its contract is stated by TopLevelPropertySucceeds |
| StyleSheetObject.ProcessTopLevelProperties | src/transformObjectExpressionIntoStyleSheetObject.js:20-22 | the loop over the top-level properties; its contract is stated by ProcessTopLevelPropertiesSucceeds, ProcessTopLevelPropertiesOrder and ProcessTopLevelPropertiesValues |
| StyleSheetObject.TransformObjectExpression | src/transformObjectExpressionIntoStyleSheetObject.js:9-25 | `transformObjectExpressionIntoStyleSheetObject`; its contract is stated by TransformSucceeds, TransformWellFormed and TransformContents |
| StyleSheetObject.KeyToName | src/transformObjectExpressionIntoStyleSheetObject.js:69-73 | a key names a property exactly when it is an identifier or a string literal, and the name is the identifier or the string; any other key fails with the key error |
| StyleSheetObject.Negate | src/transformObjectExpressionIntoStyleSheetObject.js:60-63 | `-literal` of a numeric literal `n` is the number `-n`; other literals stay symbolic negations |
| StyleSheetObject.CheckEvaluated | src/transformObjectExpressionIntoStyleSheetObject.js:46-55 | an evaluated value is kept only when it is a number or a string, and a string only when it is not blank or the property is `content`; otherwise the matching error; an evaluation that throws fails with its own error before any check |
| StyleSheetObject.TransformIntoStyleSheetObject | src/transformIntoStyleSheetObject.js:12-20 | a function or arrow function goes to the function-expression path |
| StyleSheetObjectProperties.CanEvaluateIff | src/transformObjectExpressionIntoStyleSheetObject.js:75-87 | an expression can be evaluated exactly when it is built from literals, identifiers, binary operators and `a.b` accesses, and every identifier it reads is owned by the context |
| StyleSheetObjectProperties.CanEvaluateMonotone | src/transformObjectExpressionIntoStyleSheetObject.js:75-87 | a context owning more names evaluates at least as much |
| StyleSheetObjectProperties.EmptyContextEvaluates | src/transformObjectExpressionIntoStyleSheetObject.js:12-16 | with no context, only expressions reading nothing but `evaluate` (installed by the extractor) can be evaluated |
| StyleSheetObjectProperties.ProcessValueSucceeds | src/transformObjectExpressionIntoStyleSheetObject.js:43-67 | processing a value succeeds exactly when it is accepted: evaluable with an acceptable value, an object of accepted properties, or `-` on a literal |
| StyleSheetObjectProperties.ProcessPropertySucceeds | src/transformObjectExpressionIntoStyleSheetObject.js:43-67 | one property succeeds exactly when its key names it and its value is accepted |
| StyleSheetObjectProperties.ProcessPropertiesSucceeds | src/transformObjectExpressionIntoStyleSheetObject.js:37-41 | a run of properties succeeds exactly when every property is accepted, whatever was collected before |
| StyleSheetObjectProperties.ProcessTopLevelPropertiesSucceeds | src/transformObjectExpressionIntoStyleSheetObject.js:27-35 | the top-level properties succeed exactly when each has a valid key and an object value of accepted properties |
| StyleSheetObjectProperties.TopLevelPropertySucceeds | src/transformObjectExpressionIntoStyleSheetObject.js:27-35 | one top-level property succeeds exactly when its key names it and its value is an object of accepted properties |
| StyleSheetObjectProperties.TransformSucceeds | src/transformObjectExpressionIntoStyleSheetObject.js:9-25 | extraction succeeds exactly on object expressions whose top-level properties are all accepted |
| StyleSheetObjectProperties.ProcessValueWellFormed | src/transformObjectExpressionIntoStyleSheetObject.js:51-53 | a processed value holds no blank string except under `content`, and its nested maps have unique keys |
| StyleSheetObjectProperties.ProcessPropertiesWellFormed | src/transformObjectExpressionIntoStyleSheetObject.js:37-41 | processing properties keeps the collected map well formed |
| StyleSheetObjectProperties.ProcessPropertiesKeys | src/transformObjectExpressionIntoStyleSheetObject.js:37-41 | the collected map holds, once each, its earlier keys and the names of the processed properties, and nothing else |
| StyleSheetObjectProperties.ProcessPropertyKeys | src/transformObjectExpressionIntoStyleSheetObject.js:43-67 | a successful property adds exactly its name to the collected keys, which stay unique |
| StyleSheetObjectProperties.ProcessTopLevelPropertiesWellFormed | src/transformObjectExpressionIntoStyleSheetObject.js:27-35 | the sheet has one entry per style name, and each entry is a well-formed property map |
| StyleSheetObjectProperties.TransformWellFormed | src/transformObjectExpressionIntoStyleSheetObject.js:9-25 | a successful extraction has unique style names and well-formed property maps |
| StyleSheetObjectContents.AssignKeys | src/transformObjectExpressionIntoStyleSheetObject.js:55 | `result[name] = v` leaves the key order alone when `name` is present and appends `name` otherwise |
| StyleSheetObjectContents.ProcessPropertiesOrder | src/transformObjectExpressionIntoStyleSheetObject.js:37-41 | after a successful run the keys are the earlier keys in their order, followed by each new name once, in the order of its first assignment |
| StyleSheetObjectContents.ProcessPropertiesValues | src/transformObjectExpressionIntoStyleSheetObject.js:43-67 | after a successful run every name holds the processed value of the last property naming it; a name no property assigns reads as before |
| StyleSheetObjectContents.ProcessTopLevelPropertiesOrder | src/transformObjectExpressionIntoStyleSheetObject.js:20-22 | the style names appear in the order of their first occurrence |
| StyleSheetObjectContents.ProcessTopLevelPropertiesValues | src/transformObjectExpressionIntoStyleSheetObject.js:27-35 | every style name holds the property map of its last occurrence alone: `result[name] = {}` replaces an earlier style of that name instead of merging |
| StyleSheetObjectContents.TransformContents | src/transformObjectExpressionIntoStyleSheetObject.js:9-25 | a successful extraction lists the style names in the order of first occurrence, each holding the properties of its last occurrence, and no other name |
| StyleSheetObjectProperties.DispatcherAgreesWithObjectPath | src/transformIntoStyleSheetObject.js:12-20 | on anything but a function, the dispatcher returns what the object path returns, except that a non-object fails with the "object or function expression" error |
| StyleSheetObjectExamples.EmptyObjectExample | test/transformObjectExpressionIntoStyleSheetObject.js:25-26 | `{}` gives the empty sheet, and `{ foo: {} }` gives the style `foo` with no properties |
| StyleSheetObjectExamples.StringValueExample | test/transformObjectExpressionIntoStyleSheetObject.js:29 | `{ foo: { bar: "baz" } }` gives `foo -> bar -> "baz"` |
| StyleSheetObjectExamples.LiteralSumExample | test/transformObjectExpressionIntoStyleSheetObject.js:31 | `"baz" + "bam"` is evaluated with no context and gives `"bazbam"` |
| StyleSheetObjectExamples.ContextSumExample | test/transformObjectExpressionIntoStyleSheetObject.js:32 | `baz + " " + bam` reads two context names and gives `"BAZ BAM"` |
| StyleSheetObjectExamples.ArithmeticExample | test/transformObjectExpressionIntoStyleSheetObject.js:33 | `a * (b + c) + "px"` reads three context names and gives `"14px"` |
| StyleSheetObjectExamples.MemberValueExample | test/transformObjectExpressionIntoStyleSheetObject.js:34 | `a.b` with the context `{ a: { b: "c" } }` gives `"c"` |
| StyleSheetObjectExamples.QuotedKeyExample | test/transformObjectExpressionIntoStyleSheetObject.js:27 | a quoted key `"foo foo"` names its style |
| StyleSheetObjectExamples.NumberValueExample | test/transformObjectExpressionIntoStyleSheetObject.js:28 | `{ foo: { bar: 123 } }` gives `foo -> bar -> 123` |
| StyleSheetObjectExamples.ContextValueExample | test/transformObjectExpressionIntoStyleSheetObject.js:30 | an identifier owned by the context takes its evaluated value |
| StyleSheetObjectExamples.NestedObjectExample | test/transformObjectExpressionIntoStyleSheetObject.js:44-48 | nested objects become nested maps, shown on the `test2` fragment of the large input at lines 37-72 |
| StyleSheetObjectExamples.RepeatedKeyExample | src/transformObjectExpressionIntoStyleSheetObject.js:55 | a repeated property keeps its first position and takes its last value |
| StyleSheetObjectExamples.NegatedNumberExample | src/transformObjectExpressionIntoStyleSheetObject.js:60-63 | `-5` gives the number `-5` |
| StyleSheetObjectExamples.BlankContentExample | src/transformObjectExpressionIntoStyleSheetObject.js:51 | `content: ""` is accepted |
| StyleSheetObjectExamples.NotAnObjectExample | test/transformObjectExpressionIntoStyleSheetObject.js:76-82 | a string, a number, an array, `true`, `false`, `null` or `undefined` is rejected as "must be a object expression" |
| StyleSheetObjectExamples.KeyFormsExample | test/transformObjectExpressionIntoStyleSheetObject.js:35-36 | the computed key `["foo"]` names its style `foo`, and the identifier key `undefined` names its style `"undefined"` |
| StyleSheetObjectExamples.ThrowingEvaluationExample | src/transformObjectExpressionIntoStyleSheetObject.js:46-47 | `a.b.c` with the context `{ a: {} }` can be evaluated, throws, and the extraction fails with that exception |
| StyleSheetObjectExamples.TopLevelNotObjectExample | test/transformObjectExpressionIntoStyleSheetObject.js:84-85 | a top-level string or array value is rejected |
| StyleSheetObjectExamples.NullValueExample | test/transformObjectExpressionIntoStyleSheetObject.js:87-90 | `null` and `true` values are rejected as "must be a string or number" |
| StyleSheetObjectExamples.BlankValueExample | test/transformObjectExpressionIntoStyleSheetObject.js:91-92 | `""` and `"  "` are rejected as blank |
| StyleSheetObjectExamples.InvalidValueExample | test/transformObjectExpressionIntoStyleSheetObject.js:94-98 | `[]`, `Math.PI`, `undefined`, `missing + "bam"` and `baz[0]` are rejected as invalid value expressions |
| StyleSheetObjectExamples.InvalidUnaryExample | src/transformObjectExpressionIntoStyleSheetObject.js:61 | `-x` on a non-literal is rejected as an invalid unary argument |
| StyleSheetObjectExamples.InvalidKeyExample | test/transformObjectExpressionIntoStyleSheetObject.js:100-103 | `null`, `123` and `false` keys are rejected |
| StyleSheetObjectExamples.DispatcherExample | test/transformIntoStyleSheetObject.js:129-135 | a string or `null` fails with the "object or function expression" error; functions go to the function path; objects to the object path |
| BuildCss.SheetOptions | src/buildCSS.js:12-13 | each stylesheet is rendered with the prefixes `[filename, stylesheet name]` and the build's `mediaMap` |
| BuildCss.Fragments | src/buildCSS.js:11-15 | one rendering per stylesheet, in map order |
| BuildCss.SkipEmpty | src/buildCSS.js:15-19 | the renderings from the first non-empty one on; every rendering skipped is empty |
| BuildCss.Concatenation | src/buildCSS.js:15-19 | the text the loop builds, stated without the loop; its contract is stated by ConcatenationEmpty, ConcatenationStep and ConcatenateFragments |
| BuildCss.TerminatedAppend | src/buildCSS.js:15-19 | a newline-terminated run grows by the fragment and its newline |
| BuildCss.ConcatenationStep | src/buildCSS.js:15-19 | one more stylesheet adds its CSS and, when the text is then non-empty, a newline |
| BuildCss.ConcatenateFragments | src/buildCSS.js:9-20 | the loop over the renderings yields the empty text when every rendering is empty, and otherwise every rendering from the first non-empty one on, each followed by a newline |
| BuildCss.Concatenate | src/buildCSS.js:9-20 | the loop's text is empty when every stylesheet renders empty, and otherwise every rendering from the first non-empty one on, each followed by a newline |
| BuildCss.PostProcess | src/buildCSS.js:22-40 | empty text is returned as is; otherwise the prefixer runs when `vendorPrefixes` is truthy (with its settings when it is an object) and then the minifier when `minify` is truthy |
| BuildCss.BuildCss | src/buildCSS.js:8-41 | empty text is returned as is; otherwise a truthy `vendorPrefixes` prefixes it (with its settings when it is an object, defaults otherwise) and then a truthy `minify` minifies the prefixed text |
| BuildCssProperties.ConcatenationEmpty | src/buildCSS.js:22-24 | the concatenation is empty exactly when every stylesheet renders empty |
| BuildCssProperties.NonEmptyFragmentsTerminated | src/buildCSS.js:15-19 | with no empty rendering, each stylesheet's CSS is followed by exactly one newline |
| BuildCssProperties.EmptyLaterSheetAddsBlankLine | src/buildCSS.js:17-19 | after non-empty text, an empty stylesheet still adds a newline, which leaves a blank line |
| BuildCssProperties.LeadingEmptySheetsVanish | src/buildCSS.js:17-19 | any number of empty stylesheets before the others add nothing |
| BuildCssProperties.SilentStylesRenderNothing | src/transformSpecificationIntoCSS.js:5-13 | a stylesheet whose every style is silent renders to the empty string |
| BuildCssProperties.SilentSheetsConcatenateToNothing | test/index.js:62-69 | when every style of every stylesheet is silent (an empty `cssInJS({})` in particular), the build text is empty |
| BuildCssProperties.FragmentsInMapOrder | src/buildCSS.js:11-20 | the renderings of two runs of stylesheets are those of each run in turn |

## Left out

- The function-expression path (`transformFunctionExpressionIntoStyleSheetObject`, src/transformIntoStyleSheetObject.js:22-74) runs the source text through Babel and the `vm` module. It is the parameter `functionPath` of the dispatcher, and its result is not validated.
- `context.evaluate` runs generated code in a `vm` context. It is the field `evaluate` of the context, whose outcomes include an exception (`JsThrows`); examples constrain it only on the expressions they use.
- `generateClassName` and `buildCSSRule` (unit coercion, hyphenation) are not part of this model. They are the parameters `className` and `cssRule` of the generator.
- The class-name generator `className` is one fixed, pure function for a whole rendering. With `compressClassNames` on, generateClassName compresses every selector name the CSS generator builds, `name + fragment` included (src/transformSpecificationIntoCSS.js:47 and :31), and a name the cache lacks becomes a new key. The model does not advance the cache during CSS generation. StylesInMapOrder, SelectorsInMapOrder and FragmentsInMapOrder rely on this.
- postcss/autoprefixer and CleanCSS are opaque functions of the text. DiskCache and MemoryCache (file I/O, process-wide state) are not part of this model; a cache is a value with their `fetch`/`clear` contract.
- src/index.js (the Babel visitor, option plumbing, file output) and the normalizer from style-sheet object to Specification are not part of this model.
- Numbers are integers. Floating point, `NaN` and the number formatting of JavaScript are not modelled.
- JavaScript enumerates integer-like object keys before other keys. Maps here keep plain insertion order.
- ClassNameCache: caches are values passed from one call to the next, so collision-freedom and idempotence are proved for one sequential caller. Two builds using the same `cacheDir` at the same time are not modelled.
- `__proto__` as a key and inherited keys of `mediaMap` (`mediaMap.toString`) are not modelled.
- StyleSheetObject.Negate: the negation of a non-numeric literal (`-"5"`, `-true`, `-null`) is kept symbolic as `NegatedLiteral` rather than coerced to a number.
- A key's `computed` flag is not part of a property: keyToName ignores it, so `["foo"]` names `foo` and `[foo]` names `foo` too.
- Spread elements and object methods in an object expression are represented as properties whose key or value is `OtherExpr`, and are rejected like any other unsupported key or value.
- Behaviours of the code worth noting:
  - the `mediaMap` lookup applies to every query name, including ones that start with `@`;
  - an empty alias falls back to the query name;
  - a parents entry replaces the active parent instead of composing with it (NestedParentReplacesOuter);
  - an empty parent key acts as no parent;
  - buildCSS ends the text with a newline and adds a blank line for an empty later stylesheet (EmptyLaterSheetAddsBlankLine).
