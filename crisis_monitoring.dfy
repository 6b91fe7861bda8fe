/** The crisis-monitoring dashboard: four per-domain risk metrics, a tick
    every 3 s that moves the mental and financial levels by a random drift
    and clamps them, the Low/Medium/High band that colours and labels each
    level, the pulse rule, and the response team's contact gating. */
module CrisisMonitoring {
  import opened Numeric
  import opened Severity

  datatype RiskMetric = RiskMetric(level: real, trend: string, lastCheck: string)

  /** The `riskMetrics` state record, one entry per domain. */
  datatype RiskMetrics = RiskMetrics(
    financial: RiskMetric,
    health: RiskMetric,
    mental: RiskMetric,
    legal: RiskMetric)

  function InitialMetrics(): RiskMetrics {
    RiskMetrics(
      RiskMetric(15.0, "stable", "2 min ago"),
      RiskMetric(12.0, "improving", "1 min ago"),
      RiskMetric(23.0, "stable", "30 sec ago"),
      RiskMetric(5.0, "stable", "5 min ago"))
  }

  /** The ranges the tick clamps the two simulated levels into. */
  predicate InRange(m: RiskMetrics) {
    5.0 <= m.mental.level <= 50.0 && 5.0 <= m.financial.level <= 40.0
  }

  /** One interval tick. `rMental` and `rFinancial` are the two
      `Math.random()` draws, in the order the code makes them. */
  function Tick(prev: RiskMetrics, rMental: real, rFinancial: real): (next: RiskMetrics)
    ensures InRange(next)
    ensures next.health == prev.health && next.legal == prev.legal
    ensures next.mental.trend == prev.mental.trend
    ensures next.financial.trend == prev.financial.trend
    ensures next.mental.lastCheck == "just now" && next.financial.lastCheck == "just now"
  {
    prev.(
      mental := prev.mental.(
        level := Clamp(5.0, 50.0, prev.mental.level + Drift(rMental, 6.0)),
        lastCheck := "just now"),
      financial := prev.financial.(
        level := Clamp(5.0, 40.0, prev.financial.level + Drift(rFinancial, 4.0)),
        lastCheck := "just now"))
  }

  /** The pre-clamp drifts: [-3, 3) for mental and [-2, 2) for financial. */
  lemma DriftRanges(r: real)
    requires IsUnitRandom(r)
    ensures -3.0 <= Drift(r, 6.0) < 3.0
    ensures -2.0 <= Drift(r, 4.0) < 2.0
  {
  }

  /** From a level already in range, one tick moves mental at most 3 down
      and less than 3 up, and financial at most 2 down and less than 2 up. */
  lemma TickStep(prev: RiskMetrics, rMental: real, rFinancial: real)
    requires InRange(prev)
    requires IsUnitRandom(rMental) && IsUnitRandom(rFinancial)
    ensures -3.0 <= Tick(prev, rMental, rFinancial).mental.level - prev.mental.level < 3.0
    ensures -2.0 <= Tick(prev, rMental, rFinancial).financial.level - prev.financial.level < 2.0
  {
    DriftRanges(rMental);
    DriftRanges(rFinancial);
  }

  /** The metrics after one tick per pair of draws, in order. */
  function Run(m: RiskMetrics, draws: seq<(real, real)>): RiskMetrics
    decreases |draws|
  {
    if draws == [] then m else Run(Tick(m, draws[0].0, draws[0].1), draws[1..])
  }

  /** However many ticks run, the health and legal entries and both trends
      are never touched, and the simulated levels stay in range. */
  lemma {:induction false} RunKeepsUntouched(m: RiskMetrics, draws: seq<(real, real)>)
    requires InRange(m) || draws != []
    ensures Run(m, draws).health == m.health && Run(m, draws).legal == m.legal
    ensures Run(m, draws).mental.trend == m.mental.trend
    ensures Run(m, draws).financial.trend == m.financial.trend
    ensures InRange(Run(m, draws))
    decreases |draws|
  {
    if draws != [] {
      RunKeepsUntouched(Tick(m, draws[0].0, draws[0].1), draws[1..]);
    }
  }

  /** After n ticks from an in-range state, mental has moved by at most 3n
      and financial by at most 2n. */
  lemma {:induction false} RunDriftBound(m: RiskMetrics, draws: seq<(real, real)>)
    requires InRange(m)
    requires forall i :: 0 <= i < |draws| ==> IsUnitRandom(draws[i].0) && IsUnitRandom(draws[i].1)
    ensures -3.0 * |draws| as real <= Run(m, draws).mental.level - m.mental.level <= 3.0 * |draws| as real
    ensures -2.0 * |draws| as real <= Run(m, draws).financial.level - m.financial.level <= 2.0 * |draws| as real
    decreases |draws|
  {
    if draws != [] {
      var next := Tick(m, draws[0].0, draws[0].1);
      TickStep(m, draws[0].0, draws[0].1);
      RunDriftBound(next, draws[1..]);
    }
  }

  /** The severity band of a level: below 20 Low, below 40 Medium, else High. */
  function RiskBand(level: real): Band {
    BandOf(level, 20.0, 40.0)
  }

  /** The badge text. */
  function BadgeLabel(level: real): string {
    if level < 20.0 then "Low" else if level < 40.0 then "Medium" else "High"
  }

  /** The hue of the badge border and of the round indicator behind the icon. */
  function BadgeHue(level: real): Hue {
    if level < 20.0 then Green else if level < 40.0 then Yellow else Red
  }

  /** The fill of the domain's circle in the monitoring ring. */
  function IconColour(level: real): string {
    if level < 20.0 then "#10b981" else if level < 40.0 then "#f59e0b" else "#ef4444"
  }

  function BandHex(b: Band): string {
    match b
    case Low => "#10b981"
    case Medium => "#f59e0b"
    case High => "#ef4444"
  }

  /** Label, badge hue and ring colour are three renderings of one band. */
  lemma DisplaysFollowBand(level: real)
    ensures BadgeLabel(level) == BandName(RiskBand(level))
    ensures BadgeHue(level) == BandHue(RiskBand(level))
    ensures IconColour(level) == BandHex(RiskBand(level))
  {
  }

  /** A higher level is never shown in a less severe band. */
  lemma RiskBandMonotone(a: real, b: real)
    requires a <= b
    ensures Rank(RiskBand(a)) <= Rank(RiskBand(b))
  {
    BandOfMonotone(a, b, 20.0, 40.0);
  }

  /** The indicator pulses and glows red above 30. */
  predicate Pulses(level: real) {
    level > 30.0
  }

  /** Every High level pulses, no Low level does, and a Medium level pulses
      exactly when it lies in (30, 40). */
  lemma PulseByBand(level: real)
    ensures RiskBand(level) == High ==> Pulses(level)
    ensures RiskBand(level) == Low ==> !Pulses(level)
    ensures RiskBand(level) == Medium && Pulses(level) <==> 30.0 < level < 40.0
  {
  }

  datatype TeamMember = TeamMember(
    name: string,
    role: string,
    specialty: string,
    available: bool,
    responseTime: string)

  datatype Contact = Call | Chat

  /** The contact buttons rendered under a team member. */
  function Contacts(member: TeamMember): seq<Contact> {
    if member.available then [Call, Chat] else []
  }

  /** The availability badge. */
  function StatusLabel(member: TeamMember): string {
    if member.available then "Available" else "On Call"
  }

  /** Call and Chat are offered exactly to available members, and a member
      without them is the one labelled On Call. */
  lemma ContactGating(member: TeamMember)
    ensures Call in Contacts(member) <==> member.available
    ensures Chat in Contacts(member) <==> member.available
    ensures StatusLabel(member) == "On Call" <==> Contacts(member) == []
  {
  }

  function InitialTeam(): seq<TeamMember> {
    [ TeamMember("Dr. Sarah Martinez", "Crisis Psychologist", "Mental Health", true, "< 5 min"),
      TeamMember("Robert Chen", "Financial Advisor", "Financial Crisis", true, "< 10 min"),
      TeamMember("Attorney Johnson", "Legal Counsel", "Legal Issues", true, "< 15 min"),
      TeamMember("Dr. Wilson", "Sports Medicine", "Health Crisis", false, "< 30 min") ]
  }

  /** The component's state. Only the interval tick changes it. */
  class Monitor {
    var systemStatus: string
    var riskMetrics: RiskMetrics
    var responseTeam: seq<TeamMember>

    constructor ()
      ensures systemStatus == "operational"
      ensures riskMetrics == InitialMetrics() && InRange(riskMetrics)
      ensures responseTeam == InitialTeam()
    {
      systemStatus := "operational";
      riskMetrics := InitialMetrics();
      responseTeam := InitialTeam();
    }

    /** The 3 s interval callback: rewrites the mental and financial
        entries and leaves the rest of the record as it was. */
    method OnInterval(rMental: real, rFinancial: real)
      modifies this`riskMetrics
      ensures riskMetrics == Tick(old(riskMetrics), rMental, rFinancial)
    {
      riskMetrics := Tick(riskMetrics, rMental, rFinancial);
    }
  }
}
