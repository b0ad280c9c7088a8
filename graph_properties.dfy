/** What the graph directives promise: which errors are raised and in which
    order, that every field can be read back out of the directive, how the
    directives relate to one another, and where the text is ambiguous. */
module GraphProperties {
  import opened Wrappers
  import opened Decimal
  import opened DirectiveSyntax
  import opened Graph

  // ---------------------------------------------------------------------
  // PRINT, GPRINT, COMMENT

  /** The vname and the format text can be read back out of a PRINT,
      whatever colons the format holds. */
  lemma PrintRoundTrip(p: Print)
    requires p.value.Some? && p.text.Some?
    requires NoneOf(p.value.value.vname, {':'})
    ensures PrintDefinition(p).Success?
    ensures ParseFormatted("PRINT", PrintDefinition(p).value) == Some((p.value.value.vname, p.text.value))
  {
    var v, t := p.value.value.vname, p.text.value;
    var s := PrintDefinition(p).value;
    assert s[..6] == "PRINT:" && s[6..] == v + (":" + t);
    SplitAtBoundary(v, ":" + t, {':'});
  }

  /** GPRINT fails when and how PRINT fails, and otherwise writes PRINT's
      directive with a leading G. */
  lemma GPrintIsPrefixedPrint(p: GPrint)
    ensures GPrintDefinition(p).Failure? <==> PrintDefinition(p).Failure?
    ensures PrintDefinition(p).Failure? ==> GPrintDefinition(p) == PrintDefinition(p)
    ensures PrintDefinition(p).Success? ==> GPrintDefinition(p).value == "G" + PrintDefinition(p).value
  {
  }

  lemma GPrintRoundTrip(p: GPrint)
    requires p.value.Some? && p.text.Some?
    requires NoneOf(p.value.value.vname, {':'})
    ensures GPrintDefinition(p).Success?
    ensures ParseFormatted("GPRINT", GPrintDefinition(p).value) == Some((p.value.value.vname, p.text.value))
  {
    var v, t := p.value.value.vname, p.text.value;
    var s := GPrintDefinition(p).value;
    assert s[..7] == "GPRINT:" && s[7..] == v + (":" + t);
    SplitAtBoundary(v, ":" + t, {':'});
  }

  /** COMMENT fails exactly when the text is unset; otherwise the text is
      written verbatim and reads back unchanged. */
  lemma CommentRoundTrip(c: Comment)
    ensures CommentDefinition(c).Failure? <==> c.text.None?
    ensures c.text.None? ==> CommentDefinition(c) == Failure(TextRequired)
    ensures c.text.Some? ==> ParseComment(CommentDefinition(c).value) == Some(c.text.value)
  {
    if c.text.Some? {
      var s := CommentDefinition(c).value;
      assert s[..8] == "COMMENT:" && s[8..] == c.text.value;
    }
  }

  // ---------------------------------------------------------------------
  // LINE and AREA

  /** Width, vname, colour, legend and stacking flag are all read back out of
      a LINE directive: nothing is lost. */
  lemma LineRoundTrip(width: nat, series: Series, text: Option<string>, color: Color, stack: bool)
    requires text.Some? ==> color != Invisible
    requires Separable(Drawing(series.vname, color, text, stack))
    ensures LineDefinition(width, Some(series), text, color, stack).Success?
    ensures ParseLine(LineDefinition(width, Some(series), text, color, stack).value)
         == Some((width, Drawing(series.vname, color, text, stack)))
  {
    LineTextRoundTrip(width, Drawing(series.vname, color, text, stack));
  }

  /** Vname, colour, legend and stacking flag are all read back out of an
      AREA directive. */
  lemma AreaRoundTrip(series: Series, text: Option<string>, color: Color, stack: bool)
    requires text.Some? ==> color != Invisible
    requires Separable(Drawing(series.vname, color, text, stack))
    ensures AreaDefinition(Some(series), text, color, stack).Success?
    ensures ParseArea(AreaDefinition(Some(series), text, color, stack).value)
         == Some(Drawing(series.vname, color, text, stack))
  {
    AreaTextRoundTrip(Drawing(series.vname, color, text, stack));
  }

  /** Every text ParseLine accepts, from a drawing LINE allows, is the LINE
      directive of the width and fields it reads: nothing else is written. */
  lemma LineParsedIsDefinition(s: string)
    requires ParseLine(s).Some?
    requires ParseLine(s).value.0 > 0
    requires ParseLine(s).value.1.legend.Some? ==> ParseLine(s).value.1.color != Invisible
    ensures var (width, d) := ParseLine(s).value;
      LineDefinition(width, Some(Series(d.vname)), d.legend, d.color, d.stack) == Success(s)
  {
    LineTextParsed(s);
  }

  /** Every text ParseArea accepts, from a drawing AREA allows, is the AREA
      directive of the fields it reads: nothing else is written. */
  lemma AreaParsedIsDefinition(s: string)
    requires ParseArea(s).Some?
    requires ParseArea(s).value.legend.Some? ==> ParseArea(s).value.color != Invisible
    ensures var d := ParseArea(s).value;
      AreaDefinition(Some(Series(d.vname)), d.legend, d.color, d.stack) == Success(s)
  {
    AreaTextParsed(s);
  }

  /** An AREA is the LINE with the same fields, its `LINE<width>` replaced by `AREA`. */
  lemma AreaIsRenamedLine(width: nat, data: Option<Series>, text: Option<string>, color: Color, stack: bool)
    ensures AreaDefinition(data, text, color, stack).Failure? <==> LineDefinition(width, data, text, color, stack).Failure?
    ensures LineDefinition(width, data, text, color, stack).Failure?
        ==> AreaDefinition(data, text, color, stack) == LineDefinition(width, data, text, color, stack)
    ensures LineDefinition(width, data, text, color, stack).Success?
        ==> var line, area := LineDefinition(width, data, text, color, stack).value, AreaDefinition(data, text, color, stack).value;
            && area[..4] == "AREA"
            && line == "LINE" + NatToString(width) + area[4..]
  {
    if LineDefinition(width, data, text, color, stack).Success? {
      var area := AreaDefinition(data, text, color, stack).value;
      assert area[..4] == "AREA" && area[4..] == ":" + RenderDrawing(CheckDrawing(data, text, color, stack).value);
    }
  }

  /** Stacking appends exactly `:STACK` to the directive and changes nothing
      else, on LINE and on AREA alike. */
  lemma StackAppendsSuffix(width: nat, data: Option<Series>, text: Option<string>, color: Color)
    ensures LineDefinition(width, data, text, color, true).Failure?
        ==> LineDefinition(width, data, text, color, true) == LineDefinition(width, data, text, color, false)
    ensures LineDefinition(width, data, text, color, true).Success?
        ==> (LineDefinition(width, data, text, color, true).value
             == LineDefinition(width, data, text, color, false).value + ":STACK")
    ensures AreaDefinition(data, text, color, true).Failure?
        ==> AreaDefinition(data, text, color, true) == AreaDefinition(data, text, color, false)
    ensures AreaDefinition(data, text, color, true).Success?
        ==> (AreaDefinition(data, text, color, true).value
             == AreaDefinition(data, text, color, false).value + ":STACK")
  {
  }

  /** Without a legend, the stacking flag is written as `:STACK` directly
      after the vname or colour, which is also how the legend `STACK` on an
      unstacked element is written: the two cannot be told apart, which is
      why Separable excludes that legend. */
  lemma UnlabelledStackReadsAsLegend(width: nat, data: Option<Series>, name: string)
    ensures LineDefinition(width, data, None, Named(name), true)
         == LineDefinition(width, data, Some("STACK"), Named(name), false)
    ensures AreaDefinition(data, None, Named(name), true)
         == AreaDefinition(data, Some("STACK"), Named(name), false)
  {
    if data.Some? {
      var v := data.value.vname;
      assert RenderDrawing(Drawing(v, Named(name), None, true))
          == RenderDrawing(Drawing(v, Named(name), Some("STACK"), false));
    }
  }

  /** An empty legend counts as set, so it is written as an empty field
      before `:STACK`: the form the grammar recommends. */
  lemma EmptyLegendStackText()
    ensures LineDefinition(1, Some(Series("v")), Some(""), Named("red"), true) == Success("LINE1:v#red::STACK")
  {
    assert NatToString(1) == "1";
    assert RenderDrawing(Drawing("v", Named("red"), Some(""), true)) == "v#red::STACK";
    assert "LINE" + "1" + ":" + "v#red::STACK" == "LINE1:v#red::STACK";
  }

  // ---------------------------------------------------------------------
  // Using the objects

  /** The red cpu line with legend CPU at its default width. */
  lemma CpuLineText()
    ensures LineDefinition(1, Some(Series("cpu")), Some("CPU"), Named("red"), false) == Success("LINE1:cpu#red:CPU")
  {
    assert NatToString(1) == "1";
    assert RenderDrawing(Drawing("cpu", Named("red"), Some("CPU"), false)) == "cpu#red:CPU";
    assert "LINE" + "1" + ":" + "cpu#red:CPU" == "LINE1:cpu#red:CPU";
  }

  /** The same line, three units wide and stacked. */
  lemma WideStackedCpuLineText()
    ensures LineDefinition(3, Some(Series("cpu")), Some("CPU"), Named("red"), true) == Success("LINE3:cpu#red:CPU:STACK")
  {
    assert NatToString(3) == "3";
    assert RenderDrawing(Drawing("cpu", Named("red"), Some("CPU"), true)) == "cpu#red:CPU:STACK";
    assert "LINE" + "3" + ":" + "cpu#red:CPU:STACK" == "LINE3:cpu#red:CPU:STACK";
  }

  /** A line on cpu, red, with legend CPU: first at its default width, then
      after a rejected width 0, an accepted width 3 and stacking; finally with
      the colour made invisible while the legend is still set. */
  method LineScenario() returns (first: Result<string, Error>, rejected: Outcome<Error>, accepted: Outcome<Error>,
                                 second: Result<string, Error>, invisible: Result<string, Error>)
    ensures first == Success("LINE1:cpu#red:CPU")
    ensures rejected == Fail(WidthNotPositive)
    ensures accepted == Pass
    ensures second == Success("LINE3:cpu#red:CPU:STACK")
    ensures invisible == Failure(TextOnInvisibleColor)
  {
    CpuLineText();
    WideStackedCpuLineText();
    var line := new Line(Some(Series("cpu")), Some("CPU"), Named("red"));
    first := line.Definition();
    rejected := line.SetWidth(0);
    accepted := line.SetWidth(3);
    line.SetStack(true);
    second := line.Definition();
    line.color := Invisible;
    invisible := line.Definition();
  }

  /** A stacked area on mem with the invisible colour and no legend, and the
      same area once its data is unset. */
  method AreaScenario() returns (stacked: Result<string, Error>, noData: Result<string, Error>)
    ensures stacked == Success("AREA:mem:STACK")
    ensures noData == Failure(DataRequired)
  {
    assert RenderDrawing(Drawing("mem", Invisible, None, true)) == "mem:STACK";
    assert "AREA:" + "mem:STACK" == "AREA:mem:STACK";
    var area := new Area(Some(Series("mem")), None, Invisible);
    area.SetStack(true);
    stacked := area.Definition();
    area.data := None;
    noData := area.Definition();
  }
}
