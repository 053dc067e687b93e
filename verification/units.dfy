/** The `UNIT` enumeration of the mouse-burrows parameters
    (projects/mouse_burrows/algorithm/parameters.py) and its parser table. */
module Units {
  import opened Wrappers

  /** The physical or logical unit a parameter is measured in. A parameter
      may also have no unit at all (Python `None`), written `Option<Unit>`. */
  datatype Unit =
    | Factor | Fraction | Folder | Subfolder | Color | Boolean | Integer | Str
    | LengthPixel | LengthCm | AreaPixel | TimeFrames | RateFrames
    | SpeedPixelFrame | SpeedCmSec | Deprecated

  /** The integer constant Python uses for each unit. */
  function Code(u: Unit): (r: int)
    ensures 0 < r < 10 <==> u in {Factor, Fraction, Folder, Subfolder, Color, Boolean, Integer, Str}
    ensures 10 <= r < 20 <==> u in {LengthPixel, LengthCm, AreaPixel}
    ensures 20 <= r < 30 <==> u in {TimeFrames, RateFrames}
    ensures 30 <= r < 100 <==> u in {SpeedPixelFrame, SpeedCmSec}
    ensures r == 100 <==> u == Deprecated
  {
    match u
    case Factor => 1
    case Fraction => 2
    case Folder => 3
    case Subfolder => 4
    case Color => 5
    case Boolean => 6
    case Integer => 7
    case Str => 8
    case LengthPixel => 11
    case LengthCm => 12
    case AreaPixel => 15
    case TimeFrames => 20
    case RateFrames => 21
    case SpeedPixelFrame => 30
    case SpeedCmSec => 31
    case Deprecated => 100
  }

  /** Decodes a unit constant; integers that name no unit decode to `None`. */
  function FromCode(c: int): (r: Option<Unit>)
    ensures r.Some? ==> Code(r.value) == c
  {
    if c == 1 then Some(Factor)
    else if c == 2 then Some(Fraction)
    else if c == 3 then Some(Folder)
    else if c == 4 then Some(Subfolder)
    else if c == 5 then Some(Color)
    else if c == 6 then Some(Boolean)
    else if c == 7 then Some(Integer)
    else if c == 8 then Some(Str)
    else if c == 11 then Some(LengthPixel)
    else if c == 12 then Some(LengthCm)
    else if c == 15 then Some(AreaPixel)
    else if c == 20 then Some(TimeFrames)
    else if c == 21 then Some(RateFrames)
    else if c == 30 then Some(SpeedPixelFrame)
    else if c == 31 then Some(SpeedCmSec)
    else if c == 100 then Some(Deprecated)
    else None
  }

  /** Distinct units carry distinct constants, so comparing constants (as the
      Python code does) is the same as comparing units. */
  lemma CodeRoundTrip(u: Unit)
    ensures FromCode(Code(u)) == Some(u)
  {
  }

  lemma CodeInjective(u: Unit, v: Unit)
    ensures Code(u) == Code(v) <==> u == v
  {
    CodeRoundTrip(u);
    CodeRoundTrip(v);
  }

  /** The converter registered for a unit: a cast to float, int or bool, or
      the identity that the `defaultdict` supplies for every other unit
      (and for parameters without a unit). */
  datatype Parser = Identity | ToFloat | ToInt | ToBool

  function ParserOf(u: Option<Unit>): (r: Parser)
    ensures r == ToBool <==> u == Some(Boolean)
    ensures r == ToInt <==> u == Some(Integer)
    ensures r == ToFloat <==>
      IsScaled(u) || u in {Some(Factor), Some(Fraction), Some(LengthCm), Some(SpeedCmSec)}
  {
    match u
    case Some(Factor) => ToFloat
    case Some(Fraction) => ToFloat
    case Some(Boolean) => ToBool
    case Some(Integer) => ToInt
    case Some(LengthPixel) => ToFloat
    case Some(LengthCm) => ToFloat
    case Some(AreaPixel) => ToFloat
    case Some(TimeFrames) => ToFloat
    case Some(RateFrames) => ToFloat
    case Some(SpeedPixelFrame) => ToFloat
    case Some(SpeedCmSec) => ToFloat
    case _ => Identity
  }

  /** The units whose values `scale_parameters` rewrites. */
  predicate IsScaled(u: Option<Unit>) {
    u.Some? && u.value in {LengthPixel, AreaPixel, TimeFrames, RateFrames, SpeedPixelFrame}
  }

  /** Every rescaled unit is read through the float converter, so a parsed
      parameter that scaling touches is always a number. */
  lemma ScaledUnitsParseAsFloat(u: Option<Unit>)
    ensures IsScaled(u) ==> ParserOf(u) == ToFloat
  {
  }

  /** Folders, sub-folders, colours, strings, deprecated entries and entries
      without a unit fall back to the identity parser. */
  lemma IdentityParserUnits(u: Option<Unit>)
    ensures ParserOf(u) == Identity <==>
      u.None? || u.value in {Folder, Subfolder, Color, Str, Deprecated}
  {
  }
}
