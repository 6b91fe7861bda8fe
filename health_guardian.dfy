/** The injury-prevention view: simulated vitals refreshed every 2 s by a
    random drift (heart rate unclamped, the other three clamped), a constant
    per-body-part injury-risk record, the overall risk badge, the body-part
    markers and the glow of the legs. */
module HealthGuardian {
  import opened Numeric
  import opened Severity
  import opened Values

  /** The `realTimeData` state record. */
  datatype Vitals = Vitals(heartRate: real, movement: real, recovery: real, stress: real)

  /** The `injuryRisk` state record, in the order its keys are written. */
  datatype InjuryRisk = InjuryRisk(overall: real, knee: real, shoulder: real, ankle: real, back: real)

  function InitialVitals(): Vitals {
    Vitals(72.0, 85.0, 78.0, 23.0)
  }

  function InitialInjuryRisk(): InjuryRisk {
    InjuryRisk(23.0, 15.0, 35.0, 20.0, 28.0)
  }

  /** The ranges the tick clamps movement, recovery and stress into. */
  predicate InRange(v: Vitals) {
    && 60.0 <= v.movement <= 100.0
    && 50.0 <= v.recovery <= 100.0
    && 10.0 <= v.stress <= 80.0
  }

  /** The four `Math.random()` draws of one tick, in the order the code makes them. */
  datatype Draws = Draws(heart: real, movement: real, recovery: real, stress: real)

  predicate UnitDraws(d: Draws) {
    IsUnitRandom(d.heart) && IsUnitRandom(d.movement) && IsUnitRandom(d.recovery) && IsUnitRandom(d.stress)
  }

  /** One interval tick: a new vitals record computed from the previous one. */
  function Tick(prev: Vitals, d: Draws): (next: Vitals)
    ensures InRange(next)
  {
    Vitals(
      prev.heartRate + Drift(d.heart, 4.0),
      Clamp(60.0, 100.0, prev.movement + Drift(d.movement, 10.0)),
      Clamp(50.0, 100.0, prev.recovery + Drift(d.recovery, 5.0)),
      Clamp(10.0, 80.0, prev.stress + Drift(d.stress, 8.0)))
  }

  /** Heart rate moves by a drift in [-2, 2) on every tick. */
  lemma HeartRateStep(prev: Vitals, d: Draws)
    requires IsUnitRandom(d.heart)
    ensures -2.0 <= Tick(prev, d).heartRate - prev.heartRate < 2.0
  {
  }

  /** The vitals after one tick per set of draws, in order. */
  function Run(v: Vitals, draws: seq<Draws>): Vitals
    decreases |draws|
  {
    if draws == [] then v else Run(Tick(v, draws[0]), draws[1..])
  }

  /** After n ticks heart rate is within 2n of where it started. */
  lemma {:induction false} HeartRateRunBound(v: Vitals, draws: seq<Draws>)
    requires forall i :: 0 <= i < |draws| ==> UnitDraws(draws[i])
    ensures -2.0 * |draws| as real <= Run(v, draws).heartRate - v.heartRate <= 2.0 * |draws| as real
    decreases |draws|
  {
    if draws != [] {
      HeartRateStep(v, draws[0]);
      HeartRateRunBound(Tick(v, draws[0]), draws[1..]);
    }
  }

  /** Heart rate is never clamped: draws of 0.75 raise it by exactly 1 per
      tick, so it passes any bound given enough ticks. */
  lemma {:induction false} HeartRateUnbounded(v: Vitals, draws: seq<Draws>)
    requires forall i :: 0 <= i < |draws| ==> draws[i].heart == 0.75
    ensures Run(v, draws).heartRate == v.heartRate + |draws| as real
    decreases |draws|
  {
    if draws != [] {
      HeartRateUnbounded(Tick(v, draws[0]), draws[1..]);
    }
  }

  /** The band of the overall injury risk: below 30 Low, below 60 Medium, else High. */
  function OverallBand(overall: real): Band {
    BandOf(overall, 30.0, 60.0)
  }

  /** The header badge text. */
  function OverallBadgeLabel(overall: real): string {
    if overall < 30.0 then "Low Risk" else if overall < 60.0 then "Medium Risk" else "High Risk"
  }

  /** The header badge hue. */
  function OverallBadgeHue(overall: real): Hue {
    if overall < 30.0 then Green else if overall < 60.0 then Yellow else Red
  }

  function BandLabel(b: Band): string {
    match b
    case Low => "Low Risk"
    case Medium => "Medium Risk"
    case High => "High Risk"
  }

  /** Text and hue of the header badge render the same band, and a higher
      overall risk never shows a less severe badge. */
  lemma OverallBadgeFollowsBand(overall: real, higher: real)
    requires overall <= higher
    ensures OverallBadgeLabel(overall) == BandLabel(OverallBand(overall))
    ensures OverallBadgeHue(overall) == BandHue(OverallBand(overall))
    ensures Rank(OverallBand(overall)) <= Rank(OverallBand(higher))
  {
  }

  /** The dot drawn on a body part: red above 30, yellow above 20, else green. */
  function MarkerHue(risk: real): Hue {
    if risk > 30.0 then Red else if risk > 20.0 then Yellow else Green
  }

  /** The marker's comparisons are strict: 30 is yellow and 20 is green. */
  lemma MarkerIntervals(risk: real)
    ensures MarkerHue(risk) == Red <==> 30.0 < risk
    ensures MarkerHue(risk) == Yellow <==> 20.0 < risk <= 30.0
    ensures MarkerHue(risk) == Green <==> risk <= 20.0
  {
  }

  /** Against a lower-inclusive band with the same cut points, the marker
      disagrees exactly at the cut points themselves. */
  lemma MarkerEdgesDifferFromBand(risk: real)
    ensures MarkerHue(risk) == BandHue(BandOf(risk, 20.0, 30.0)) <==> risk != 20.0 && risk != 30.0
  {
  }

  /** Both legs glow red when the knee risk is above 30, green otherwise. */
  predicate LegsGlowRed(risk: InjuryRisk) {
    risk.knee > 30.0
  }

  /** The legs glow red exactly when the knee marker is red. */
  lemma LegGlowMatchesKneeMarker(risk: InjuryRisk)
    ensures LegsGlowRed(risk) <==> MarkerHue(risk.knee) == Red
  {
  }

  /** `Object.entries(injuryRisk)`. */
  function Entries(risk: InjuryRisk): seq<(string, real)> {
    [("overall", risk.overall), ("knee", risk.knee), ("shoulder", risk.shoulder),
     ("ankle", risk.ankle), ("back", risk.back)]
  }

  /** The body parts listed on the figure and under Risk Factors. */
  function BodyParts(risk: InjuryRisk): seq<(string, real)> {
    WithoutKey(Entries(risk), "overall")
  }

  /** The body-part lists show every injury-risk entry except the overall
      score, in declaration order. */
  lemma BodyPartsAreAllButOverall(risk: InjuryRisk)
    ensures BodyParts(risk)
      == [("knee", risk.knee), ("shoulder", risk.shoulder), ("ankle", risk.ankle), ("back", risk.back)]
  {
    var back := [("back", risk.back)];
    var ankle := [("ankle", risk.ankle)] + back;
    var shoulder := [("shoulder", risk.shoulder)] + ankle;
    var knee := [("knee", risk.knee)] + shoulder;
    assert Entries(risk) == [("overall", risk.overall)] + knee;
    assert WithoutKey(back, "overall") == back by {
      assert back[1..] == [];
    }
    assert WithoutKey(ankle, "overall") == ankle by {
      assert ankle[1..] == back;
    }
    assert WithoutKey(shoulder, "overall") == shoulder by {
      assert shoulder[1..] == ankle;
    }
    assert WithoutKey(knee, "overall") == knee by {
      assert knee[1..] == shoulder;
    }
    assert ([("overall", risk.overall)] + knee)[1..] == knee;
  }

  /** The component's state. Only the interval tick changes it, and it
      changes only the vitals: no code ever updates the injury risks. */
  class Guardian {
    var realTimeData: Vitals
    var injuryRisk: InjuryRisk

    constructor ()
      ensures realTimeData == InitialVitals() && InRange(realTimeData)
      ensures injuryRisk == InitialInjuryRisk()
    {
      realTimeData := InitialVitals();
      injuryRisk := InitialInjuryRisk();
    }

    /** The 2 s interval callback. */
    method OnInterval(d: Draws)
      modifies this`realTimeData
      ensures realTimeData == Tick(old(realTimeData), d)
      ensures injuryRisk == old(injuryRisk)
    {
      realTimeData := Tick(realTimeData, d);
    }
  }
}
