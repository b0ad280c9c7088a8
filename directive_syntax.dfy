/** The text of the graph directives: the pieces a directive is assembled
    from, and readers that take a directive apart again. The readers are the
    reference against which the assembled strings are checked: every field
    that went into a directive can be read back out of it. */
module DirectiveSyntax {
  import opened Wrappers
  import opened Decimal

  /** A data series defined elsewhere (DEF, CDEF or VDEF); a directive refers
      to it by its vname, which is kept as an opaque string. */
  datatype Series = Series(vname: string)

  /** The colour of a LINE or AREA: a colour name, or the `:invisible`
      sentinel, which draws nothing and writes no colour. */
  datatype Color = Invisible | Named(name: string)

  /** The fields of a LINE or AREA after the keyword. */
  datatype Drawing = Drawing(vname: string, color: Color, legend: Option<string>, stack: bool)

  // ---------------------------------------------------------------------
  // Assembling

  function ColorSegment(c: Color): string {
    match c
    case Invisible => ""
    case Named(name) => "#" + name
  }

  function LegendSegment(legend: Option<string>): string {
    match legend
    case None => ""
    case Some(text) => ":" + text
  }

  function StackSegment(stack: bool): string {
    if stack then ":STACK" else ""
  }

  /** `<vname>[#<color>][:<legend>][:STACK]`, in that order. */
  function RenderDrawing(d: Drawing): string {
    d.vname + (ColorSegment(d.color) + (LegendSegment(d.legend) + StackSegment(d.stack)))
  }

  // ---------------------------------------------------------------------
  // Splitting at separators

  predicate NoneOf(s: string, seps: set<char>) {
    forall j :: 0 <= j < |s| ==> s[j] !in seps
  }

  /** The position of the first separator in s, or |s| if there is none. */
  function FirstOf(s: string, seps: set<char>): (i: nat)
    ensures i <= |s|
    ensures NoneOf(s[..i], seps)
    ensures i < |s| ==> s[i] in seps
  {
    if s == [] || s[0] in seps then 0
    else
      var i := 1 + FirstOf(s[1..], seps);
      assert forall j :: 1 <= j < i ==> s[..i][j] == s[1..][..i - 1][j - 1];
      i
  }

  /** s cut before its first separator. */
  function Split(s: string, seps: set<char>): (p: (string, string))
    ensures p.0 + p.1 == s
    ensures NoneOf(p.0, seps)
    ensures p.1 == [] || p.1[0] in seps
  {
    var i := FirstOf(s, seps);
    assert s[..i] + s[i..] == s;
    (s[..i], s[i..])
  }

  /** A field free of separators is cut off exactly where the next segment begins. */
  lemma SplitAtBoundary(a: string, b: string, seps: set<char>)
    requires NoneOf(a, seps)
    requires b == [] || b[0] in seps
    ensures Split(a + b, seps) == (a, b)
  {
    assert (a + b)[..|a|] == a && (a + b)[|a|..] == b;
  }

  // ---------------------------------------------------------------------
  // Reading back

  function ParseColor(s: string): (Color, string) {
    if s != [] && s[0] == '#' then
      var p := Split(s[1..], {':'});
      (Named(p.0), p.1)
    else (Invisible, s)
  }

  predicate EndsWithStack(s: string) {
    |s| >= 6 && s[|s| - 6..] == ":STACK"
  }

  /** `[:<legend>][:STACK]`: the legend is everything after the first colon,
      less one trailing `:STACK`, and may itself hold colons. */
  function ParseLegendStack(s: string): Option<(Option<string>, bool)> {
    if s == [] then Some((None, false))
    else if s[0] != ':' then None
    else
      var x := s[1..];
      if x == "STACK" then Some((None, true))
      else if EndsWithStack(x) then Some((Some(x[..|x| - 6]), true))
      else Some((Some(x), false))
  }

  function ParseDrawing(s: string): Option<Drawing> {
    var v := Split(s, {':', '#'});
    var c := ParseColor(v.1);
    match ParseLegendStack(c.1)
    case None => None
    case Some(ls) => Some(Drawing(v.0, c.0, ls.0, ls.1))
  }

  /** `LINE<width>:<drawing>`, the width a canonical numeral. */
  function ParseLine(s: string): Option<(nat, Drawing)> {
    if |s| < 4 || s[..4] != "LINE" then None
    else
      var p := Split(s[4..], {':'});
      if p.1 == [] || !Canonical(p.0) then None
      else
        match ParseDrawing(p.1[1..])
        case None => None
        case Some(d) => Some((ParseDigits(p.0), d))
  }

  /** `AREA:<drawing>`. */
  function ParseArea(s: string): Option<Drawing> {
    if |s| < 5 || s[..5] != "AREA:" then None else ParseDrawing(s[5..])
  }

  /** `<keyword>:<vname>:<format>`, as PRINT and GPRINT write it; the format
      runs to the end and may itself hold colons. */
  function ParseFormatted(keyword: string, s: string): Option<(string, string)> {
    var n := |keyword| + 1;
    if |s| < n || s[..n] != keyword + ":" then None
    else
      var p := Split(s[n..], {':'});
      if p.1 == [] then None else Some((p.0, p.1[1..]))
  }

  /** `COMMENT:<text>`. */
  function ParseComment(s: string): Option<string> {
    if |s| < 8 || s[..8] != "COMMENT:" then None else Some(s[8..])
  }

  // ---------------------------------------------------------------------
  // Round trip

  /** The fields can be told apart in the assembled text: the vname holds no
      `:` or `#`, the colour name no `:`, and the legend of an unstacked
      drawing is neither `STACK` nor ends in `:STACK` (either would read as
      the stacking flag). The legend may otherwise hold colons. */
  predicate Separable(d: Drawing) {
    && NoneOf(d.vname, {':', '#'})
    && (d.color.Named? ==> NoneOf(d.color.name, {':'}))
    && (d.legend.Some? && !d.stack ==> d.legend.value != "STACK" && !EndsWithStack(d.legend.value))
  }

  lemma ColorRoundTrip(c: Color, rest: string)
    requires c.Named? ==> NoneOf(c.name, {':'})
    requires rest == [] || rest[0] == ':'
    ensures ParseColor(ColorSegment(c) + rest) == (c, rest)
  {
    if c.Named? {
      var s := ColorSegment(c) + rest;
      assert s[0] == '#' && s[1..] == c.name + rest;
      SplitAtBoundary(c.name, rest, {':'});
    } else {
      assert ColorSegment(c) + rest == rest;
    }
  }

  lemma LegendStackRoundTrip(legend: Option<string>, stack: bool)
    requires legend.Some? && !stack ==> legend.value != "STACK" && !EndsWithStack(legend.value)
    ensures ParseLegendStack(LegendSegment(legend) + StackSegment(stack)) == Some((legend, stack))
  {
    var s := LegendSegment(legend) + StackSegment(stack);
    match legend
    case None =>
      if stack {
        assert s == ":STACK" && s[1..] == "STACK";
      }
    case Some(t) =>
      var x := t + StackSegment(stack);
      assert s == ":" + x && s[1..] == x;
      if stack {
        assert |x| == |t| + 6 && x[|x| - 6..] == ":STACK" && x[..|x| - 6] == t;
        assert x != "STACK";
        assert ParseLegendStack(s) == Some((Some(t), true));
      } else {
        assert x == t;
        assert ParseLegendStack(s) == Some((Some(t), false));
      }
  }

  /** A separable drawing is read back exactly as it was assembled. */
  lemma DrawingRoundTrip(d: Drawing)
    requires Separable(d)
    ensures ParseDrawing(RenderDrawing(d)) == Some(d)
  {
    var ls := LegendSegment(d.legend) + StackSegment(d.stack);
    var tail := ColorSegment(d.color) + ls;
    assert ls == [] || ls[0] == ':';
    SplitAtBoundary(d.vname, tail, {':', '#'});
    ColorRoundTrip(d.color, ls);
    LegendStackRoundTrip(d.legend, d.stack);
  }

  lemma ColorRenders(s: string)
    requires s == [] || s[0] in {':', '#'}
    ensures var c := ParseColor(s);
      && ColorSegment(c.0) + c.1 == s
      && (c.1 == [] || c.1[0] == ':')
      && (c.0.Named? ==> NoneOf(c.0.name, {':'}))
  {
  }

  lemma LegendStackRenders(s: string)
    requires ParseLegendStack(s).Some?
    ensures var ls := ParseLegendStack(s).value;
      && LegendSegment(ls.0) + StackSegment(ls.1) == s
      && (ls.0.Some? && !ls.1 ==> ls.0.value != "STACK" && !EndsWithStack(ls.0.value))
  {
  }

  /** Whatever the reader accepts is a separable drawing written back as the
      very same text: the reader is injective and inverts RenderDrawing. */
  lemma DrawingParsedRenders(s: string)
    requires ParseDrawing(s).Some?
    ensures Separable(ParseDrawing(s).value)
    ensures RenderDrawing(ParseDrawing(s).value) == s
  {
    var v := Split(s, {':', '#'});
    ColorRenders(v.1);
    var c := ParseColor(v.1);
    LegendStackRenders(c.1);
    var ls := ParseLegendStack(c.1).value;
    var d := Drawing(v.0, c.0, ls.0, ls.1);
    assert ParseDrawing(s) == Some(d);
    assert c.1 == LegendSegment(d.legend) + StackSegment(d.stack);
    assert v.1 == ColorSegment(d.color) + c.1;
  }

  /** The keyword, the numeral and the drawing of `LINE<digits>:<body>`
      are where ParseLine looks for them. */
  lemma LineParts(digits: string, body: string)
    requires NoneOf(digits, {':'})
    ensures var s := "LINE" + digits + ":" + body;
      && |s| >= 4 && s[..4] == "LINE"
      && Split(s[4..], {':'}) == (digits, ":" + body)
  {
    var s := "LINE" + digits + ":" + body;
    assert s[4..] == digits + (":" + body);
    SplitAtBoundary(digits, ":" + body, {':'});
  }

  /** `LINE<width>:<drawing>` is read back into the width and the drawing. */
  lemma LineTextRoundTrip(width: nat, d: Drawing)
    requires Separable(d)
    ensures ParseLine("LINE" + NatToString(width) + ":" + RenderDrawing(d)) == Some((width, d))
  {
    var digits, body := NatToString(width), RenderDrawing(d);
    LineParts(digits, body);
    assert (":" + body)[1..] == body;
    DrawingRoundTrip(d);
    ParseNatToString(width);
  }

  lemma Regroup4(a: string, b: string, c: string, d: string)
    ensures a + (b + (c + d)) == a + b + c + d
  {
  }

  /** A text cut after its keyword into a field and, past a colon, the rest
      is `<keyword><field>:<rest>`. */
  lemma KeywordPartsBack(keyword: string, s: string)
    requires |s| >= |keyword| && s[..|keyword|] == keyword
    requires Split(s[|keyword|..], {':'}).1 != []
    ensures var p := Split(s[|keyword|..], {':'});
      s == keyword + p.0 + ":" + p.1[1..]
  {
  }

  /** Whatever ParseLine accepts is `LINE<width>:<drawing>` for the width and
      the separable drawing it reads. */
  lemma LineTextParsed(s: string)
    requires ParseLine(s).Some?
    ensures Separable(ParseLine(s).value.1)
    ensures s == "LINE" + NatToString(ParseLine(s).value.0) + ":" + RenderDrawing(ParseLine(s).value.1)
  {
    var p := Split(s[4..], {':'});
    KeywordPartsBack("LINE", s);
    NatToStringParse(p.0);
    DrawingParsedRenders(p.1[1..]);
  }

  /** `AREA:<drawing>` is read back into the drawing. */
  lemma AreaTextRoundTrip(d: Drawing)
    requires Separable(d)
    ensures ParseArea("AREA:" + RenderDrawing(d)) == Some(d)
  {
    var s := "AREA:" + RenderDrawing(d);
    assert s[..5] == "AREA:" && s[5..] == RenderDrawing(d);
    DrawingRoundTrip(d);
  }

  /** Whatever ParseArea accepts is `AREA:<drawing>` for the separable drawing it reads. */
  lemma AreaTextParsed(s: string)
    requires ParseArea(s).Some?
    ensures Separable(ParseArea(s).value)
    ensures s == "AREA:" + RenderDrawing(ParseArea(s).value)
  {
    DrawingParsedRenders(s[5..]);
    assert s == s[..5] + s[5..];
  }
}
