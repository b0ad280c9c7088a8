# simplerrd graph directives in Dafny

A model of the graph-directive builders of simplerrd
(`lib/simplerrd/command/graph.rb`). Each builder turns a few optional fields
into one line of RRDtool graph-directive text or raises an error:

```
PRINT:<vname>:<text>
GPRINT:<vname>:<text>
COMMENT:<text>
LINE<width>:<vname>[#<color>][:<text>][:STACK]
AREA:<vname>[#<color>][:<text>][:STACK]
```

- `wrappers.dfy` (`Wrappers`): `Option` for fields that may be unset (Ruby's
  `nil`), `Result` for a `definition` that either returns a string or raises,
  and `Outcome` for a validating setter.
- `decimal.dfy` (`Decimal`): the decimal numeral Ruby writes for the LINE
  width, with the proof that it reads back to the width and that every
  canonical numeral is such a rendering.
- `directive_syntax.dfy` (`DirectiveSyntax`): the data series (`Series`,
  referred to by its opaque `vname`), the colour (`Named(name)` or the
  `Invisible` sentinel), the segments a LINE or AREA is assembled from, and
  readers (`ParseLine`, `ParseArea`, `ParseFormatted`, `ParseComment`) that take
  a directive apart again. The readers are the independent reference the
  builders are checked against: every field that goes into a directive is
  read back out of it.
- `graph.dfy` (`Graph`): the error kinds with the messages the source raises;
  PRINT, GPRINT and COMMENT as values with a `definition` function (GPRINT has
  PRINT's fields, as the Ruby subclass does); LINE and AREA as classes whose
  fields are updated in place. `Line` keeps `width > 0` (`Valid()`) through its
  constructor and its validating `SetWidth`; both classes have a `SetStack`
  setter, and their `Definition` methods check the fields and then append the
  segments one after another, as the source does, proved equal to the
  functions `LineDefinition` and `AreaDefinition`. The contracts of the
  `definition` functions and of `CheckDrawing` state which errors are raised
  and in which order.
- `graph_properties.dfy` (`GraphProperties`): the round trips through the
  readers and their converses, GPRINT as PRINT with a
  leading `G`, AREA as LINE with `LINE<width>` replaced by `AREA`, stacking as
  the append of exactly `:STACK`, the one ambiguity of the text, and two
  client methods that drive the `Line` and `Area` objects.

The model follows the code's concatenation order. With the text unset and
stacking on, the code writes `:STACK` directly after the vname or colour, not
the empty legend field (`LINEx:<value>::STACK`) that the directive grammar's
documentation in the source comment recommends, so a stacked AREA on `mem`
with the invisible colour and no legend is `AREA:mem:STACK`, not
`AREA:mem::STACK`. Only an empty text, which Ruby treats as set, gives the
recommended form: `EmptyLegendStackText` shows `LINE1:v#red::STACK`.
`UnlabelledStackReadsAsLegend` shows what the short form costs on a named
colour: a stacked AREA on `mem` coloured `blue` without legend is
`AREA:mem#blue:STACK`, the same text as the unstacked one with the legend
`STACK`. On the invisible colour there is no such clash, because a legend
there is refused. The round-trip lemmas hold for separable fields
(`DirectiveSyntax.Separable`): a vname without `:` or `#`, a colour name
without `:`, and, on an unstacked element, a legend that is neither `STACK`
nor ends in `:STACK`. A legend may otherwise hold colons (an escaped `\:`
included): the reader takes everything after the first colon that follows
the vname and colour, less one trailing `:STACK`. Each excluded case is text
that another choice of fields also produces. The code escapes nothing, so
text with colons is written verbatim. The readers also run the other way:
every text they accept is the rendering of the fields they read, so the
directive is exactly its segments and nothing else.

## Model

| member | source | states |
|---|---|---|
| Decimal.NatToString | lib/simplerrd/command/graph.rb:128 | the width is written as a canonical decimal numeral: non-empty, digits only, starting with `0` exactly when the number is zero |
| Decimal.ParseNatToString | lib/simplerrd/command/graph.rb:128 | reading the written width back gives the width |
| Decimal.NatToStringParse | lib/simplerrd/command/graph.rb:128 | every canonical numeral is the one written for its value, so width and numeral determine each other |
| DirectiveSyntax.DrawingRoundTrip | lib/simplerrd/command/graph.rb:128-131 | vname, `#color` (absent for invisible), `:legend` (absent when unset) and `:STACK` (absent when not stacked) are read back exactly, for separable fields: vname without `:`/`#`, colour name without `:`, unstacked legend neither `STACK` nor ending in `:STACK`; legends with colons are read back |
| DirectiveSyntax.DrawingParsedRenders | lib/simplerrd/command/graph.rb:128-131 | every text the drawing reader accepts yields separable fields whose rendering is that very text |
| DirectiveSyntax.LineTextRoundTrip | lib/simplerrd/command/graph.rb:128-131 | `LINE<width>:` followed by a separable drawing reads back into that width and drawing |
| DirectiveSyntax.LineTextParsed | lib/simplerrd/command/graph.rb:128-131 | every text ParseLine accepts is `LINE<width>:` followed by the rendering of the separable drawing it reads |
| DirectiveSyntax.AreaTextRoundTrip | lib/simplerrd/command/graph.rb:158-161 | `AREA:` followed by a separable drawing reads back into that drawing |
| DirectiveSyntax.AreaTextParsed | lib/simplerrd/command/graph.rb:158-161 | every text ParseArea accepts is `AREA:` followed by the rendering of the separable drawing it reads |
| Graph.Message | lib/simplerrd/command/graph.rb:47-127 | the text each error is raised with (lines 47-48, 75, 117 and 126-127); exactly the three missing-field errors say "required but not set" |
| Graph.PrintDefinition | lib/simplerrd/command/graph.rb:46-50 | PRINT fails iff value or text is unset; a missing value is reported first, then a missing text |
| Graph.GPrintDefinition | lib/simplerrd/command/graph.rb:58-62 | GPRINT fails iff value or text is unset; a missing value is reported first, then a missing text |
| Graph.CommentDefinition | lib/simplerrd/command/graph.rb:74-77 | COMMENT fails iff the text is unset, with the missing-text error |
| Graph.CheckDrawing | lib/simplerrd/command/graph.rb:126-127 | the shared LINE/AREA checks fail iff data is unset or a text is set on the invisible colour, missing data first; otherwise the drawing carries exactly the given vname, colour, legend and flag |
| Graph.LineDefinition | lib/simplerrd/command/graph.rb:125-132 | LINE fails iff data is unset or a text is set on the invisible colour; missing data is reported first |
| Graph.AreaDefinition | lib/simplerrd/command/graph.rb:155-162 | AREA fails iff data is unset or a text is set on the invisible colour; missing data is reported first |
| GraphProperties.PrintRoundTrip | lib/simplerrd/command/graph.rb:46-50 | with both fields set PRINT succeeds, and `PRINT:`, a colon-free vname and the whole format text (colons included) read back |
| GraphProperties.GPrintIsPrefixedPrint | lib/simplerrd/command/graph.rb:58-62 | GPRINT fails exactly when and with the error PRINT does, and otherwise is PRINT's directive with a leading `G` |
| GraphProperties.GPrintRoundTrip | lib/simplerrd/command/graph.rb:58-62 | with both fields set GPRINT succeeds, and `GPRINT:`, a colon-free vname and the format text read back |
| GraphProperties.CommentRoundTrip | lib/simplerrd/command/graph.rb:74-77 | COMMENT fails iff the text is unset, raising the missing-text error; otherwise the text is written verbatim after `COMMENT:` and reads back unchanged |
| Graph.Line.constructor | lib/simplerrd/command/graph.rb:107-111 | a new line holds the given data, text and colour, has width 1 and is not stacked |
| Graph.Line.SetWidth | lib/simplerrd/command/graph.rb:115-119 | a width ≤ 0 is rejected with the width error and leaves the old width; a positive one is stored; `width > 0` holds afterwards |
| Graph.Line.SetStack | lib/simplerrd/command/graph.rb:121-123 | stores the flag and nothing else |
| Graph.Line.Definition | lib/simplerrd/command/graph.rb:125-133 | the segments appended in place give exactly `LineDefinition` of the current fields |
| Graph.Area.constructor | lib/simplerrd/command/graph.rb:144-147 | a new area holds the given data, text and colour and is not stacked |
| Graph.Area.SetStack | lib/simplerrd/command/graph.rb:151-153 | stores the flag and nothing else |
| Graph.Area.Definition | lib/simplerrd/command/graph.rb:155-163 | the segments appended in place give exactly `AreaDefinition` of the current fields |
| GraphProperties.LineRoundTrip | lib/simplerrd/command/graph.rb:125-132 | with data set and no text on the invisible colour LINE succeeds, and width, vname, colour, legend and stacking flag all read back from it when the fields are separable (vname without `:`/`#`, colour name without `:`, unstacked legend neither `STACK` nor ending in `:STACK`) |
| GraphProperties.AreaRoundTrip | lib/simplerrd/command/graph.rb:155-162 | with data set and no text on the invisible colour AREA succeeds, and vname, colour, legend and stacking flag all read back from it when the fields are separable (as for LINE) |
| GraphProperties.LineParsedIsDefinition | lib/simplerrd/command/graph.rb:125-132 | every text ParseLine accepts, with a positive width and no legend on the invisible colour, is exactly LINE's directive for the fields read: nothing else is written |
| GraphProperties.AreaParsedIsDefinition | lib/simplerrd/command/graph.rb:155-162 | every text ParseArea accepts, with no legend on the invisible colour, is exactly AREA's directive for the fields read: nothing else is written |
| GraphProperties.AreaIsRenamedLine | lib/simplerrd/command/graph.rb:158-161 | AREA fails exactly when and as LINE does; otherwise it starts with `AREA` and LINE's directive is `LINE<width>` followed by the rest of AREA's |
| GraphProperties.StackAppendsSuffix | lib/simplerrd/command/graph.rb:131 | for LINE and AREA, stacking changes no error and appends exactly `:STACK` to the unstacked directive |
| GraphProperties.UnlabelledStackReadsAsLegend | lib/simplerrd/command/graph.rb:128-131 | on a named colour, a stacked LINE or AREA without legend is the same text as the unstacked one with legend `STACK` |
| GraphProperties.EmptyLegendStackText | lib/simplerrd/command/graph.rb:128-131 | an empty legend, which counts as set, gives the recommended empty field: a stacked red line on `v` is `LINE1:v#red::STACK` |
| GraphProperties.CpuLineText | lib/simplerrd/command/graph.rb:128-130 | a red `cpu` line with legend `CPU` at width 1 is `LINE1:cpu#red:CPU` |
| GraphProperties.WideStackedCpuLineText | lib/simplerrd/command/graph.rb:128-131 | the same line at width 3, stacked, is `LINE3:cpu#red:CPU:STACK` |
| GraphProperties.LineScenario | lib/simplerrd/command/graph.rb:107-132 | a red `cpu` line with legend `CPU` is `LINE1:cpu#red:CPU`; width 0 is rejected and width 3 accepted; after stacking it is `LINE3:cpu#red:CPU:STACK`; made invisible with the legend still set it fails |
| GraphProperties.AreaScenario | lib/simplerrd/command/graph.rb:144-162 | a stacked invisible `mem` area without legend is `AREA:mem:STACK`; with data unset it fails with the missing-data error |

## Left out

- The `Command` base class and `call_hash_methods`: the options hash applied through dynamic setter calls is replaced by constructor parameters (data, text, colour) and direct calls of `SetWidth` and `SetStack`; the unknown-option error of that dispatch is not modelled.
- `TextAttribute`, `ValueAttribute`, `DataAttribute` and `ColorAttribute` are not part of this model: their fields are plain public fields of optional values, and their setters and defaults are not modelled. In particular the default of an unset colour is not modelled: a `Line` or `Area` always holds a `Color`.
- Graph.Line.SetWidth: takes an integer; Ruby's `to_i` coercion of other objects (strings, floats truncated toward zero) is left out.
- Graph.Line.SetStack: takes a boolean; Ruby's `!!` coercion of arbitrary objects (everything but `nil` and `false` is true) is left out. The same holds for Graph.Area.SetStack.
- Symbols: colours are names (strings) and `:invisible` is the distinguished `Invisible` case; Ruby's interpolation of symbols and of `nil` into strings is not modelled.
- Raising is modelled as a `Failure` or `Fail` result carrying an `Error`; `Graph.Message` gives the text each error is raised with.
- The percent-format grammar of PRINT and GPRINT text, the `:strftime` suffix, and LINE's dashes and dash-offset modifiers appear only in comments; RRDtool interprets them and the code passes text through unchanged, so they are not modelled.
- Colon escaping in COMMENT and PRINT text is left to the caller: the code inserts text verbatim, and so does the model.
- LineRoundTrip: reads back only separable fields. A vname with `:` or `#`, a colour name with `:`, or an unstacked legend equal to `STACK` or ending in `:STACK` gives text that other fields also give, so no reader can recover them.
- AreaRoundTrip: reads back only separable fields, for the same reason as LINE.
- LineTextRoundTrip: holds for separable drawings only, for the same reason.
- AreaTextRoundTrip: holds for separable drawings only, for the same reason.
- DrawingRoundTrip: holds for separable drawings only, for the same reason.
