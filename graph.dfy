/** The graph directives of lib/simplerrd/command/graph.rb: PRINT, GPRINT and
    COMMENT as values with a `definition` function, LINE and AREA as objects
    whose width and stacking flag are set through validating setters and whose
    `definition` assembles the directive piece by piece. */
module Graph {
  import opened Wrappers
  import opened Decimal
  import opened DirectiveSyntax

  /** What a `definition` or a setter raises. */
  datatype Error =
    | ValueRequired
    | TextRequired
    | DataRequired
    | TextOnInvisibleColor
    | WidthNotPositive

  const NotSet := " required but not set"

  predicate EndsWith(s: string, suffix: string) {
    |suffix| <= |s| && s[|s| - |suffix|..] == suffix
  }

  /** The message each error is raised with; the three missing-field errors,
      and only they, say that a required field is not set. It only lists the
      texts raised: the contracts speak of the `Error` values. */
  function Message(e: Error): (m: string)
    ensures (e.ValueRequired? || e.TextRequired? || e.DataRequired?) <==> EndsWith(m, NotSet)
  {
    match e
    case ValueRequired => "Value" + NotSet
    case TextRequired => "Text" + NotSet
    case DataRequired => "Data" + NotSet
    case TextOnInvisibleColor => "Text specified, but color set to :invisible"
    case WidthNotPositive => "Width must be a number >0 "
  }

  // ---------------------------------------------------------------------
  // PRINT, GPRINT, COMMENT

  /** PRINT: the series whose value is printed, and the format text. */
  datatype Print = Print(value: Option<Series>, text: Option<string>)

  /** GPRINT keeps PRINT's fields and changes only the keyword. */
  type GPrint = Print

  /** `PRINT:<vname>:<text>`; the value is checked before the text. */
  function PrintDefinition(p: Print): (r: Result<string, Error>)
    ensures r.Failure? <==> p.value.None? || p.text.None?
    ensures p.value.None? ==> r == Failure(ValueRequired)
    ensures p.value.Some? && p.text.None? ==> r == Failure(TextRequired)
  {
    if p.value.None? then Failure(ValueRequired)
    else if p.text.None? then Failure(TextRequired)
    else Success("PRINT:" + p.value.value.vname + ":" + p.text.value)
  }

  /** `GPRINT:<vname>:<text>`, with PRINT's checks in PRINT's order. */
  function GPrintDefinition(p: GPrint): (r: Result<string, Error>)
    ensures r.Failure? <==> p.value.None? || p.text.None?
    ensures p.value.None? ==> r == Failure(ValueRequired)
    ensures p.value.Some? && p.text.None? ==> r == Failure(TextRequired)
  {
    if p.value.None? then Failure(ValueRequired)
    else if p.text.None? then Failure(TextRequired)
    else Success("GPRINT:" + p.value.value.vname + ":" + p.text.value)
  }

  /** COMMENT: the text, written verbatim (no colon is escaped). */
  datatype Comment = Comment(text: Option<string>)

  function CommentDefinition(c: Comment): (r: Result<string, Error>)
    ensures r.Failure? <==> c.text.None?
    ensures r.Failure? ==> r.error == TextRequired
  {
    if c.text.None? then Failure(TextRequired)
    else Success("COMMENT:" + c.text.value)
  }

  // ---------------------------------------------------------------------
  // LINE and AREA

  /** The checks LINE and AREA share: data first, then no legend on an
      invisible colour. On success, the drawing the directive describes. */
  function CheckDrawing(data: Option<Series>, text: Option<string>, color: Color, stack: bool): (r: Result<Drawing, Error>)
    ensures r.Failure? <==> data.None? || (text.Some? && color == Invisible)
    ensures data.None? ==> r == Failure(DataRequired)
    ensures data.Some? && text.Some? && color == Invisible ==> r == Failure(TextOnInvisibleColor)
    ensures r.Success? ==> r.value == Drawing(data.value.vname, color, text, stack)
  {
    if data.None? then Failure(DataRequired)
    else if text.Some? && color == Invisible then Failure(TextOnInvisibleColor)
    else Success(Drawing(data.value.vname, color, text, stack))
  }

  /** The directive a LINE with these fields defines. */
  function LineDefinition(width: nat, data: Option<Series>, text: Option<string>, color: Color, stack: bool): (r: Result<string, Error>)
    ensures r.Failure? <==> data.None? || (text.Some? && color == Invisible)
    ensures data.None? ==> r == Failure(DataRequired)
    ensures data.Some? && text.Some? && color == Invisible ==> r == Failure(TextOnInvisibleColor)
  {
    match CheckDrawing(data, text, color, stack)
    case Failure(e) => Failure(e)
    case Success(d) => Success("LINE" + NatToString(width) + ":" + RenderDrawing(d))
  }

  /** The directive an AREA with these fields defines. */
  function AreaDefinition(data: Option<Series>, text: Option<string>, color: Color, stack: bool): (r: Result<string, Error>)
    ensures r.Failure? <==> data.None? || (text.Some? && color == Invisible)
    ensures data.None? ==> r == Failure(DataRequired)
    ensures data.Some? && text.Some? && color == Invisible ==> r == Failure(TextOnInvisibleColor)
  {
    match CheckDrawing(data, text, color, stack)
    case Failure(e) => Failure(e)
    case Success(d) => Success("AREA:" + RenderDrawing(d))
  }

  /** Segments appended one after another, regrouped as RenderDrawing nests them. */
  lemma Regroup(keyword: string, a: string, b: string, c: string, d: string)
    ensures keyword + a + b + c + d == keyword + (a + (b + (c + d)))
  {
  }

  class Line {
    var data: Option<Series>
    var text: Option<string>
    var color: Color
    var width: int
    var stack: bool

    /** Kept by the constructor and the width setter: a line is at least one unit wide. */
    ghost predicate Valid()
      reads this
    {
      width > 0
    }

    /** A new line is one unit wide and not stacked. */
    constructor (data: Option<Series>, text: Option<string>, color: Color)
      ensures Valid()
      ensures this.data == data && this.text == text && this.color == color
      ensures width == 1 && !stack
    {
      this.data := data;
      this.text := text;
      this.color := color;
      width := 1;
      stack := false;
    }

    /** Stores a positive width; rejects any other and keeps the old one. */
    method SetWidth(n: int) returns (outcome: Outcome<Error>)
      requires Valid()
      modifies this`width
      ensures Valid()
      ensures outcome == if n > 0 then Pass else Fail(WidthNotPositive)
      ensures width == if n > 0 then n else old(width)
    {
      if n <= 0 {
        return Fail(WidthNotPositive);
      }
      width := n;
      return Pass;
    }

    method SetStack(b: bool)
      modifies this`stack
      ensures stack == b
    {
      stack := b;
    }

    /** Checks the fields, then appends the segments one after another. */
    method Definition() returns (r: Result<string, Error>)
      requires Valid()
      ensures r == LineDefinition(width, data, text, color, stack)
    {
      if data.None? {
        return Failure(DataRequired);
      }
      if text.Some? && color == Invisible {
        return Failure(TextOnInvisibleColor);
      }
      var vname, c, t, st := data.value.vname, color, text, stack;
      var ret := "LINE" + NatToString(width) + ":" + vname;
      ghost var head := ret;
      if c != Invisible {
        ret := ret + ("#" + c.name);
      }
      assert ret == head + ColorSegment(c);
      if t.Some? {
        ret := ret + (":" + t.value);
      }
      assert ret == head + ColorSegment(c) + LegendSegment(t);
      if st {
        ret := ret + ":STACK";
      }
      assert ret == head + ColorSegment(c) + LegendSegment(t) + StackSegment(st);
      Regroup("LINE" + NatToString(width) + ":", vname, ColorSegment(c), LegendSegment(t), StackSegment(st));
      return Success(ret);
    }
  }

  class Area {
    var data: Option<Series>
    var text: Option<string>
    var color: Color
    var stack: bool

    /** A new area is not stacked. */
    constructor (data: Option<Series>, text: Option<string>, color: Color)
      ensures this.data == data && this.text == text && this.color == color
      ensures !stack
    {
      this.data := data;
      this.text := text;
      this.color := color;
      stack := false;
    }

    method SetStack(b: bool)
      modifies this`stack
      ensures stack == b
    {
      stack := b;
    }

    /** Checks the fields, then appends the segments one after another. */
    method Definition() returns (r: Result<string, Error>)
      ensures r == AreaDefinition(data, text, color, stack)
    {
      if data.None? {
        return Failure(DataRequired);
      }
      if text.Some? && color == Invisible {
        return Failure(TextOnInvisibleColor);
      }
      var vname, c, t, st := data.value.vname, color, text, stack;
      var ret := "AREA:" + vname;
      ghost var head := ret;
      if c != Invisible {
        ret := ret + ("#" + c.name);
      }
      assert ret == head + ColorSegment(c);
      if t.Some? {
        ret := ret + (":" + t.value);
      }
      assert ret == head + ColorSegment(c) + LegendSegment(t);
      if st {
        ret := ret + ":STACK";
      }
      assert ret == head + ColorSegment(c) + LegendSegment(t) + StackSegment(st);
      Regroup("AREA:", vname, ColorSegment(c), LegendSegment(t), StackSegment(st));
      return Success(ret);
    }
  }
}
