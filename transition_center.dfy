/** The career-transition view: the readiness cards (every readiness metric
    but the overall score, each with a label and colour), the match badges
    of the career paths and of the education programmes, and the mentor
    list's Connect buttons. The state is constant. */
module TransitionCenter {
  import opened Values
  import opened Severity

  /** The `transitionReadiness` state record, in the order its keys are written. */
  datatype Readiness = Readiness(overall: real, skills: real, education: real, network: real, planning: real)

  function InitialReadiness(): Readiness {
    Readiness(45.0, 62.0, 38.0, 54.0, 41.0)
  }

  /** `Object.entries(transitionReadiness)`. */
  function Entries(r: Readiness): seq<(string, real)> {
    [("overall", r.overall), ("skills", r.skills), ("education", r.education),
     ("network", r.network), ("planning", r.planning)]
  }

  /** The readiness cards. */
  function Overview(r: Readiness): seq<(string, real)> {
    WithoutKey(Entries(r), "overall")
  }

  /** The cards show every readiness metric except the overall score, in
      declaration order. */
  lemma OverviewIsAllButOverall(r: Readiness)
    ensures Overview(r)
      == [("skills", r.skills), ("education", r.education), ("network", r.network), ("planning", r.planning)]
  {
    var planning := [("planning", r.planning)];
    var network := [("network", r.network)] + planning;
    var education := [("education", r.education)] + network;
    var skills := [("skills", r.skills)] + education;
    assert Entries(r) == [("overall", r.overall)] + skills;
    assert WithoutKey(planning, "overall") == planning by {
      assert planning[1..] == [];
    }
    assert WithoutKey(network, "overall") == network by {
      assert network[1..] == planning;
    }
    assert WithoutKey(education, "overall") == education by {
      assert education[1..] == network;
    }
    assert WithoutKey(skills, "overall") == skills by {
      assert skills[1..] == education;
    }
    assert ([("overall", r.overall)] + skills)[1..] == skills;
  }

  datatype Stage = Ready | Developing | NeedsWork

  /** The stage of a readiness value: above 70 Ready, above 40 Developing. */
  function StageOf(value: real): Stage {
    if value > 70.0 then Ready else if value > 40.0 then Developing else NeedsWork
  }

  /** The badge text of a readiness card. */
  function ReadinessLabel(value: real): string {
    if value > 70.0 then "Ready" else if value > 40.0 then "Developing" else "Needs Work"
  }

  /** The badge hue of a readiness card. */
  function ReadinessHue(value: real): Hue {
    if value > 70.0 then Green else if value > 40.0 then Yellow else Red
  }

  function StageName(s: Stage): string {
    match s
    case Ready => "Ready"
    case Developing => "Developing"
    case NeedsWork => "Needs Work"
  }

  function StageHue(s: Stage): Hue {
    match s
    case Ready => Green
    case Developing => Yellow
    case NeedsWork => Red
  }

  function StageRank(s: Stage): nat {
    match s
    case NeedsWork => 0
    case Developing => 1
    case Ready => 2
  }

  /** Text and hue render the same stage, whose intervals exclude their
      lower edge, and a higher value never shows a lower stage. */
  lemma ReadinessDisplaysAgree(value: real, higher: real)
    requires value <= higher
    ensures ReadinessLabel(value) == StageName(StageOf(value))
    ensures ReadinessHue(value) == StageHue(StageOf(value))
    ensures StageOf(value) == Ready <==> value > 70.0
    ensures StageOf(value) == Developing <==> 40.0 < value <= 70.0
    ensures StageRank(StageOf(value)) <= StageRank(StageOf(higher))
  {
  }

  /** With the initial readiness, skills, network and planning are
      Developing and only education Needs Work; none is Ready. */
  lemma InitialStages()
    ensures forall i :: 0 <= i < |Overview(InitialReadiness())| ==>
      StageOf(Overview(InitialReadiness())[i].1) == [Developing, NeedsWork, Developing, Developing][i]
  {
    OverviewIsAllButOverall(InitialReadiness());
  }

  /** A match badge's hue: green above `greenAbove`, yellow above
      `yellowAbove`, blue otherwise. */
  function MatchHue(score: real, greenAbove: real, yellowAbove: real): Hue {
    if score > greenAbove then Green else if score > yellowAbove then Yellow else Blue
  }

  /** The badge of a career path. */
  function CareerHue(score: real): Hue {
    MatchHue(score, 80.0, 60.0)
  }

  /** The badge of an education programme. */
  function ProgramHue(score: real): Hue {
    MatchHue(score, 85.0, 70.0)
  }

  /** Raising both cut-offs can only demote a badge: green under the higher
      cut-offs is green under the lower ones, and blue under the lower
      ones is blue under the higher ones. */
  lemma StricterCutoffsDemote(score: real, g1: real, y1: real, g2: real, y2: real)
    requires g1 <= g2 && y1 <= y2
    ensures MatchHue(score, g2, y2) == Green ==> MatchHue(score, g1, y1) == Green
    ensures MatchHue(score, g1, y1) == Blue ==> MatchHue(score, g2, y2) == Blue
  {
  }

  /** So the programme badge is never greener than the career badge would
      be for the same match, and the two differ, for example, at 83. */
  lemma ProgramStricterThanCareer(score: real)
    ensures ProgramHue(score) == Green ==> CareerHue(score) == Green
    ensures CareerHue(score) == Blue ==> ProgramHue(score) == Blue
    ensures CareerHue(83.0) == Green && ProgramHue(83.0) == Yellow
  {
    StricterCutoffsDemote(score, 80.0, 60.0, 85.0, 70.0);
  }

  /** The career paths' and programmes' match scores, in display order. */
  function CareerMatches(): seq<real> {
    [88.0, 76.0, 92.0, 65.0]
  }

  function ProgramMatches(): seq<real> {
    [85.0, 92.0, 76.0]
  }

  /** The initial badges; the programme at exactly 85 is yellow, since the
      comparison is strict. */
  lemma InitialMatchBadges()
    ensures forall i :: 0 <= i < |CareerMatches()| ==>
      CareerHue(CareerMatches()[i]) == [Green, Yellow, Green, Yellow][i]
    ensures forall i :: 0 <= i < |ProgramMatches()| ==>
      ProgramHue(ProgramMatches()[i]) == [Yellow, Green, Yellow][i]
  {
  }

  datatype Mentor = Mentor(name: string, sport: string, company: string, score: real, available: bool)

  /** The Connect button of a mentor. */
  datatype MentorButton = MentorButton(disabled: bool, caption: string)

  function MentorButtonOf(m: Mentor): MentorButton {
    MentorButton(!m.available, if m.available then "Connect" else "Unavailable")
  }

  /** The button is disabled exactly for an unavailable mentor, and it then
      reads Unavailable; an enabled button always reads Connect. */
  lemma MentorButtonGating(m: Mentor)
    ensures MentorButtonOf(m).disabled <==> !m.available
    ensures MentorButtonOf(m).caption == "Unavailable" <==> MentorButtonOf(m).disabled
    ensures !MentorButtonOf(m).disabled ==> MentorButtonOf(m).caption == "Connect"
  {
  }

  function Mentors(): seq<Mentor> {
    [ Mentor("Marcus Johnson", "Basketball → Sports Management", "NBA Team Executive", 94.0, true),
      Mentor("Sarah Williams", "Soccer → Broadcasting", "ESPN Analyst", 87.0, true),
      Mentor("David Chen", "Tennis → Entrepreneurship", "Fitness App Founder", 82.0, false) ]
  }

  /** Of the listed mentors only the third cannot be contacted. */
  lemma InitialMentorButtons()
    ensures forall i :: 0 <= i < |Mentors()| ==> (MentorButtonOf(Mentors()[i]).disabled <==> i == 2)
  {
  }
}
