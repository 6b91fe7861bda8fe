/** The mental-performance view: the daily check-in cards with their rating
    and progress bar, the metric badges (stress read inverted, lower being
    better) and the colours of the brain map's focus, confidence and
    resilience spots. The state is constant. */
module MentalPerformance {
  import opened Severity

  /** The `mentalStats` state record. */
  datatype MentalStats = MentalStats(
    overall: real, stress: real, confidence: real, focus: real, resilience: real, identity: real)

  function InitialStats(): MentalStats {
    MentalStats(76.0, 23.0, 84.0, 78.0, 82.0, 65.0)
  }

  /** The `dailyCheckin` state record. */
  datatype CheckIn = CheckIn(mood: real, energy: real, motivation: real, pressure: real)

  function InitialCheckIn(): CheckIn {
    CheckIn(7.0, 8.0, 6.0, 4.0)
  }

  /** `Object.entries(dailyCheckin)`: one card per entry, in this order. */
  function CheckInEntries(c: CheckIn): seq<(string, real)> {
    [("mood", c.mood), ("energy", c.energy), ("motivation", c.motivation), ("pressure", c.pressure)]
  }

  datatype Rating = Excellent | Good | NeedsAttention

  /** The rating of a check-in value: at least 7 Excellent, at least 5 Good. */
  function CheckInRating(value: real): Rating {
    if value >= 7.0 then Excellent else if value >= 5.0 then Good else NeedsAttention
  }

  /** The text under a check-in card. */
  function CheckInLabel(value: real): string {
    if value >= 7.0 then "Excellent" else if value >= 5.0 then "Good" else "Needs attention"
  }

  /** The hue of the round indicator of a check-in card. */
  function CheckInHue(value: real): Hue {
    if value >= 7.0 then Green else if value >= 5.0 then Yellow else Red
  }

  function RatingName(r: Rating): string {
    match r
    case Excellent => "Excellent"
    case Good => "Good"
    case NeedsAttention => "Needs attention"
  }

  function RatingHue(r: Rating): Hue {
    match r
    case Excellent => Green
    case Good => Yellow
    case NeedsAttention => Red
  }

  /** How good a rating is: Needs attention < Good < Excellent. */
  function RatingRank(r: Rating): nat {
    match r
    case NeedsAttention => 0
    case Good => 1
    case Excellent => 2
  }

  /** The text and the indicator render the same rating, whose intervals
      include their lower edge, and a higher value never rates worse. */
  lemma CheckInDisplaysAgree(value: real, higher: real)
    requires value <= higher
    ensures CheckInLabel(value) == RatingName(CheckInRating(value))
    ensures CheckInHue(value) == RatingHue(CheckInRating(value))
    ensures CheckInRating(value) == Excellent <==> 7.0 <= value
    ensures CheckInRating(value) == Good <==> 5.0 <= value < 7.0
    ensures RatingRank(CheckInRating(value)) <= RatingRank(CheckInRating(higher))
  {
  }

  /** The check-in progress bar: the value times ten. */
  function CheckInProgress(value: real): real {
    value * 10.0
  }

  /** A value on the 0-10 scale fills the bar between 0 and 100, and the bar
      preserves the order of the values. */
  lemma CheckInProgressBounds(value: real, higher: real)
    requires 0.0 <= value <= higher <= 10.0
    ensures 0.0 <= CheckInProgress(value) <= CheckInProgress(higher) <= 100.0
  {
  }

  /** The initial check-in shows mood and energy Excellent, motivation Good
      and pressure Needs attention. */
  lemma InitialCheckInRatings()
    ensures forall i :: 0 <= i < |CheckInEntries(InitialCheckIn())| ==>
      CheckInRating(CheckInEntries(InitialCheckIn())[i].1) == [Excellent, Excellent, Good, NeedsAttention][i]
  {
  }

  /** One of the metric cards; `inverted` marks a metric where lower is better. */
  datatype Metric = Metric(title: string, value: real, inverted: bool)

  /** The metric cards, in order. */
  function MetricCards(s: MentalStats): seq<Metric> {
    [ Metric("Stress Level", s.stress, true),
      Metric("Confidence", s.confidence, false),
      Metric("Identity Score", s.identity, false) ]
  }

  datatype Grade = GoodGrade | Fair | NeedsWork

  /** The first test of the badge: below 30 when inverted, above 75 otherwise. */
  predicate IsGood(m: Metric) {
    if m.inverted then m.value < 30.0 else m.value > 75.0
  }

  /** The second test: below 50 when inverted, above 50 otherwise. */
  predicate IsFair(m: Metric) {
    if m.inverted then m.value < 50.0 else m.value > 50.0
  }

  function MetricGrade(m: Metric): Grade {
    if IsGood(m) then GoodGrade else if IsFair(m) then Fair else NeedsWork
  }

  /** The badge text. */
  function MetricBadgeLabel(m: Metric): string {
    if IsGood(m) then "Good" else if IsFair(m) then "Fair" else "Needs Work"
  }

  /** The badge border and text hue. */
  function MetricBadgeHue(m: Metric): Hue {
    if IsGood(m) then Green else if IsFair(m) then Yellow else Red
  }

  function GradeName(g: Grade): string {
    match g
    case GoodGrade => "Good"
    case Fair => "Fair"
    case NeedsWork => "Needs Work"
  }

  function GradeHue(g: Grade): Hue {
    match g
    case GoodGrade => Green
    case Fair => Yellow
    case NeedsWork => Red
  }

  function GradeRank(g: Grade): nat {
    match g
    case NeedsWork => 0
    case Fair => 1
    case GoodGrade => 2
  }

  /** Badge text and hue render the same grade. */
  lemma MetricBadgeAgrees(m: Metric)
    ensures MetricBadgeLabel(m) == GradeName(MetricGrade(m))
    ensures MetricBadgeHue(m) == GradeHue(MetricGrade(m))
  {
  }

  /** The grade intervals: an ordinary metric is Good above 75 and Fair in
      (50, 75]; an inverted one is Good below 30 and Fair in [30, 50). */
  lemma MetricGradeIntervals(m: Metric)
    ensures !m.inverted ==> (MetricGrade(m) == GoodGrade <==> m.value > 75.0)
    ensures !m.inverted ==> (MetricGrade(m) == Fair <==> 50.0 < m.value <= 75.0)
    ensures m.inverted ==> (MetricGrade(m) == GoodGrade <==> m.value < 30.0)
    ensures m.inverted ==> (MetricGrade(m) == Fair <==> 30.0 <= m.value < 50.0)
  {
  }

  /** A higher value never grades worse on an ordinary metric and never
      grades better on an inverted one. */
  lemma MetricGradeOrder(title: string, a: real, b: real)
    requires a <= b
    ensures GradeRank(MetricGrade(Metric(title, a, false))) <= GradeRank(MetricGrade(Metric(title, b, false)))
    ensures GradeRank(MetricGrade(Metric(title, a, true))) >= GradeRank(MetricGrade(Metric(title, b, true)))
  {
  }

  /** With the initial stats, stress (23, inverted) and confidence (84) are
      Good and identity (65) is Fair; read without inversion, a stress of
      23 would need work. */
  lemma InitialMetricGrades()
    ensures forall i :: 0 <= i < |MetricCards(InitialStats())| ==>
      MetricGrade(MetricCards(InitialStats())[i]) == [GoodGrade, GoodGrade, Fair][i]
    ensures MetricGrade(Metric("Stress Level", InitialStats().stress, false)) == NeedsWork
  {
  }

  /** The fill of a brain-map spot: above 75 green, above 50 amber, else red. */
  function SpotColour(value: real): string {
    if value > 75.0 then "#10b981" else if value > 50.0 then "#f59e0b" else "#ef4444"
  }

  function GradeHex(g: Grade): string {
    match g
    case GoodGrade => "#10b981"
    case Fair => "#f59e0b"
    case NeedsWork => "#ef4444"
  }

  /** A brain-map spot is coloured by the grade the same value gets on an
      ordinary (non-inverted) metric badge. */
  lemma SpotMatchesOrdinaryBadge(title: string, value: real)
    ensures SpotColour(value) == GradeHex(MetricGrade(Metric(title, value, false)))
  {
  }

  /** The three spots, for focus, confidence and resilience. */
  function Spots(s: MentalStats): seq<string> {
    [SpotColour(s.focus), SpotColour(s.confidence), SpotColour(s.resilience)]
  }

  /** All three spots are green with the initial stats. */
  lemma InitialSpotsGreen()
    ensures forall i :: 0 <= i < |Spots(InitialStats())| ==> Spots(InitialStats())[i] == "#10b981"
  {
  }
}
