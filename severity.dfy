/** The ordered three-level severity bands and the colour hues the
    components use to display them. */
module Severity {

  datatype Band = Low | Medium | High

  /** Position of a band in the severity order: Low < Medium < High. */
  function Rank(b: Band): nat {
    match b
    case Low => 0
    case Medium => 1
    case High => 2
  }

  /** The band of `level` for the rule `level < mediumFrom ? Low :
      level < highFrom ? Medium : High`, inclusive on each band's lower edge. */
  function BandOf(level: real, mediumFrom: real, highFrom: real): Band {
    if level < mediumFrom then Low else if level < highFrom then Medium else High
  }

  /** A higher level never falls in a less severe band. */
  lemma BandOfMonotone(a: real, b: real, mediumFrom: real, highFrom: real)
    requires mediumFrom <= highFrom
    requires a <= b
    ensures Rank(BandOf(a, mediumFrom, highFrom)) <= Rank(BandOf(b, mediumFrom, highFrom))
  {
  }

  /** Each band is exactly one half-open interval of levels. */
  lemma BandOfIntervals(level: real, mediumFrom: real, highFrom: real)
    requires mediumFrom <= highFrom
    ensures BandOf(level, mediumFrom, highFrom) == Low <==> level < mediumFrom
    ensures BandOf(level, mediumFrom, highFrom) == Medium <==> mediumFrom <= level < highFrom
    ensures BandOf(level, mediumFrom, highFrom) == High <==> highFrom <= level
  {
  }

  /** The plain badge text of a band. */
  function BandName(b: Band): string {
    match b
    case Low => "Low"
    case Medium => "Medium"
    case High => "High"
  }

  /** The Tailwind colour families the badges, markers and chips use. */
  datatype Hue = Green | Yellow | Red | Blue | Gray

  /** The traffic-light hue a band is drawn in. */
  function BandHue(b: Band): Hue {
    match b
    case Low => Green
    case Medium => Yellow
    case High => Red
  }
}
