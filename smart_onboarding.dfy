/** The six-step onboarding wizard: a step counter moved by Next and
    Previous, a form of sections edited one field at a time, the merge that
    turns the form into the user's profile, the risk badges of the final
    step, the step chips and the progress read-out. */
module SmartOnboarding {
  import opened Values
  import opened Numeric
  import opened Severity

  /** `steps.length`. */
  const StepCount: int := 6

  datatype Step = Step(id: int, title: string)

  function Steps(): (steps: seq<Step>)
    ensures |steps| == StepCount
    ensures forall i :: 0 <= i < |steps| ==> steps[i].id == i + 1
  {
    [ Step(1, "Personal Info"), Step(2, "Athletic Profile"), Step(3, "Health Assessment"),
      Step(4, "Education"), Step(5, "Financial Status"), Step(6, "AI Risk Analysis") ]
  }

  predicate ValidStep(step: int) {
    1 <= step <= StepCount
  }

  /** `nextStep`: advance unless on the last step. */
  function Next(step: int): int {
    if step < StepCount then step + 1 else step
  }

  /** `prevStep`: go back unless on the first step. */
  function Prev(step: int): int {
    if step > 1 then step - 1 else step
  }

  /** Both moves keep the step in [1, 6]; Next is a no-op exactly on the
      last step and Prev exactly on the first. */
  lemma MovesStayInRange(step: int)
    requires ValidStep(step)
    ensures ValidStep(Next(step)) && ValidStep(Prev(step))
    ensures Next(step) == step <==> step == StepCount
    ensures Prev(step) == step <==> step == 1
  {
  }

  /** Next then Prev returns to the step unless it was the last; Prev then
      Next returns to it unless it was the first. */
  lemma MovesUndoEachOther(step: int)
    requires ValidStep(step)
    ensures step < StepCount ==> Prev(Next(step)) == step
    ensures step > 1 ==> Next(Prev(step)) == step
  {
  }

  datatype Move = Forward | Backward

  /** The step after pressing the buttons in order. */
  function Navigate(step: int, moves: seq<Move>): int
    decreases |moves|
  {
    if moves == [] then step
    else Navigate(if moves[0] == Forward then Next(step) else Prev(step), moves[1..])
  }

  /** No sequence of presses leaves [1, 6], and none moves further than
      one step per press. */
  lemma {:induction false} NavigateStaysInRange(step: int, moves: seq<Move>)
    requires ValidStep(step)
    ensures ValidStep(Navigate(step, moves))
    ensures step - |moves| <= Navigate(step, moves) <= step + |moves|
    decreases |moves|
  {
    if moves != [] {
      var s := if moves[0] == Forward then Next(step) else Prev(step);
      NavigateStaysInRange(s, moves[1..]);
    }
  }

  /** Pressing Next n times from any step stops at the last step. */
  lemma {:induction false} ForwardPresses(step: int, n: nat)
    requires ValidStep(step)
    ensures Navigate(step, seq(n, _ => Forward)) == if step + n < StepCount then step + n else StepCount
    decreases n
  {
    if n > 0 {
      var moves := seq(n, _ => Forward);
      assert moves[0] == Forward;
      assert moves[1..] == seq(n - 1, _ => Forward);
      ForwardPresses(Next(step), n - 1);
    }
  }

  /** The form: section name to field name to value. */
  type FormData = map<string, Record>

  /** A section, or no fields at all when the section does not exist
      (spreading undefined contributes nothing). */
  function Section(form: FormData, name: string): Record {
    if name in form then form[name] else map[]
  }

  /** The initial personal section: the name prefilled from the profile
      when it is truthy there, everything else empty. */
  function InitialPersonal(userProfile: Record): Record {
    map[
      "name" := OrDefault(userProfile, "name", Str("")),
      "age" := Str(""), "height" := Str(""), "weight" := Str(""), "nationality" := Str("")]
  }

  /** The initial athletic section: sport and position prefilled likewise. */
  function InitialAthletic(userProfile: Record): Record {
    map[
      "sport" := OrDefault(userProfile, "sport", Str("")),
      "position" := OrDefault(userProfile, "position", Str("")),
      "experienceYears" := Str(""), "currentTeam" := Str(""),
      "contractValue" := Str(""), "contractEnd" := Str("")]
  }

  /** The initial form. */
  function InitialForm(userProfile: Record): FormData {
    map[
      "personalInfo" := InitialPersonal(userProfile),
      "athleticInfo" := InitialAthletic(userProfile),
      "healthInfo" := map[
        "injuryHistory" := Str(""), "currentInjuries" := Str(""),
        "fitnessLevel" := Str(""), "medicalConditions" := Str("")],
      "education" := map[
        "highestDegree" := Str(""), "institution" := Str(""),
        "additionalCerts" := Str(""), "currentStudies" := Str("")],
      "financial" := map[
        "annualIncome" := Str(""), "savings" := Str(""),
        "investments" := Str(""), "expenses" := Str("")]
    ]
  }

  /** The two sections the completed profile reads, as the initial form holds them. */
  lemma InitialSections(userProfile: Record)
    ensures Section(InitialForm(userProfile), "personalInfo") == InitialPersonal(userProfile)
    ensures Section(InitialForm(userProfile), "athleticInfo") == InitialAthletic(userProfile)
  {
  }

  /** `updateFormData(section, field, value)`. */
  function UpdateForm(form: FormData, section: string, field: string, value: string): FormData {
    form[section := Section(form, section)[field := Str(value)]]
  }

  /** An update sets exactly the named field: every other field of that
      section and every other section keep their values. */
  lemma UpdateFormChangesOneField(form: FormData, section: string, field: string, value: string)
    ensures var r := UpdateForm(form, section, field, value);
      && r.Keys == form.Keys + {section}
      && r[section].Keys == Section(form, section).Keys + {field}
      && r[section][field] == Str(value)
      && (forall f :: f in Section(form, section) && f != field ==> r[section][f] == form[section][f])
      && (forall s :: s in form && s != section ==> r[s] == form[s])
  {
  }

  /** The hard-coded risk assessment of the last step. */
  datatype RiskAssessment = RiskAssessment(
    injury: real, financial: real, career: real, mental: real, overall: string)

  function InitialRiskAssessment(): RiskAssessment {
    RiskAssessment(25.0, 15.0, 35.0, 20.0, "Medium")
  }

  /** `completeOnboarding`: the profile overlaid by the personal section,
      then the athletic section, then the overall risk level. */
  function CompletedProfile(userProfile: Record, form: FormData, overall: string): Record {
    Spread(
      Spread(Spread(userProfile, Section(form, "personalInfo")), Section(form, "athleticInfo")),
      map["riskLevel" := Str(overall)])
  }

  /** Later sources win: riskLevel is always the assessment's, then athletic
      fields, then personal fields, then the old profile; the health,
      education and financial sections never reach the profile. */
  lemma CompletedProfilePrecedence(userProfile: Record, form: FormData, overall: string, k: string)
    ensures var p := CompletedProfile(userProfile, form, overall);
      var personal := Section(form, "personalInfo");
      var athletic := Section(form, "athleticInfo");
      && p.Keys == userProfile.Keys + personal.Keys + athletic.Keys + {"riskLevel"}
      && p["riskLevel"] == Str(overall)
      && (k != "riskLevel" && k in athletic ==> p[k] == athletic[k])
      && (k != "riskLevel" && k !in athletic && k in personal ==> p[k] == personal[k])
      && (k != "riskLevel" && k !in athletic && k !in personal && k in userProfile ==> p[k] == userProfile[k])
  {
  }

  /** Completing without editing the form replaces the profile's name by
      its truthy value or by the empty string, and its sport and position
      likewise. */
  lemma UneditedFormPrefills(userProfile: Record, overall: string)
    ensures var p := CompletedProfile(userProfile, InitialForm(userProfile), overall);
      && p["name"] == OrDefault(userProfile, "name", Str(""))
      && p["sport"] == OrDefault(userProfile, "sport", Str(""))
      && p["position"] == OrDefault(userProfile, "position", Str(""))
  {
    var form := InitialForm(userProfile);
    InitialSections(userProfile);
    assert "name" in InitialPersonal(userProfile) && "name" !in InitialAthletic(userProfile);
    assert "sport" in InitialAthletic(userProfile) && "position" in InitialAthletic(userProfile);
    CompletedProfilePrecedence(userProfile, form, overall, "name");
    CompletedProfilePrecedence(userProfile, form, overall, "sport");
    CompletedProfilePrecedence(userProfile, form, overall, "position");
  }

  /** `Object.entries(riskAssessment)`: four numeric scores and the
      overall level, which is text. */
  function RiskEntries(ra: RiskAssessment): seq<(string, Value)> {
    [("injury", Num(ra.injury)), ("financial", Num(ra.financial)), ("career", Num(ra.career)),
     ("mental", Num(ra.mental)), ("overall", Str(ra.overall))]
  }

  /** The risk cards of the last step: every entry except the overall level. */
  function RiskCards(ra: RiskAssessment): seq<(string, Value)> {
    WithoutKey(RiskEntries(ra), "overall")
  }

  /** The cards are the four numeric scores in declaration order, so every
      card compares a number against the band cut points. */
  lemma RiskCardsAreScores(ra: RiskAssessment)
    ensures RiskCards(ra)
      == [("injury", Num(ra.injury)), ("financial", Num(ra.financial)),
          ("career", Num(ra.career)), ("mental", Num(ra.mental))]
  {
    FilterRiskEntries(ra);
  }

  /** The filter itself, one entry at a time. */
  lemma FilterRiskEntries(ra: RiskAssessment)
    ensures WithoutKey(RiskEntries(ra), "overall")
      == [("injury", Num(ra.injury)), ("financial", Num(ra.financial)),
          ("career", Num(ra.career)), ("mental", Num(ra.mental))]
  {
    var scores := [("injury", Num(ra.injury)), ("financial", Num(ra.financial)),
                   ("career", Num(ra.career)), ("mental", Num(ra.mental))];
    var overall := ("overall", Str(ra.overall));
    assert RiskEntries(ra) == scores + [overall];
    WithoutKeyAppend(scores, [overall], "overall");
    WithoutKeyAbsent(scores, "overall");
    WithoutKeyCons(overall, [], "overall");
    assert [overall] + [] == [overall];
  }

  /** The band of a risk score on the last step: below 30 Low, below 60
      Medium, else High. */
  function RiskBand(value: real): Band {
    BandOf(value, 30.0, 60.0)
  }

  function RiskBadgeLabel(value: real): string {
    if value < 30.0 then "Low" else if value < 60.0 then "Medium" else "High"
  }

  function RiskBadgeHue(value: real): Hue {
    if value < 30.0 then Green else if value < 60.0 then Yellow else Red
  }

  /** Badge text and hue render one band, and the band grows with the score. */
  lemma RiskBadgeFollowsBand(value: real, higher: real)
    requires value <= higher
    ensures RiskBadgeLabel(value) == BandName(RiskBand(value))
    ensures RiskBadgeHue(value) == BandHue(RiskBand(value))
    ensures Rank(RiskBand(value)) <= Rank(RiskBand(higher))
  {
  }

  datatype Chip = Current | Completed | Pending

  /** The style of the chip of step `id`. */
  function ChipOf(currentStep: int, id: int): Chip {
    if currentStep == id then Current else if currentStep > id then Completed else Pending
  }

  /** Exactly the chip of the current step is current, the chips before it
      are completed and the chips after it pending. */
  lemma ExactlyOneCurrentChip(currentStep: int)
    requires ValidStep(currentStep)
    ensures (set i | 0 <= i < |Steps()| && ChipOf(currentStep, Steps()[i].id) == Current) == {currentStep - 1}
    ensures forall i :: 0 <= i < |Steps()| ==>
      (ChipOf(currentStep, Steps()[i].id) == Completed <==> i < currentStep - 1)
  {
  }

  /** The "n% Complete" read-out. */
  function ProgressPercent(step: int): int {
    Round(step as real / StepCount as real * 100.0)
  }

  datatype PrimaryButton = NextStepButton | CompleteButton

  /** The right-hand button: Complete Onboarding on the last step, Next
      Step elsewhere. */
  function PrimaryButtonAt(step: int): PrimaryButton {
    if step == StepCount then CompleteButton else NextStepButton
  }

  /** The read-out is positive, reaches 100 only on the last step, and the
      Complete button is shown exactly when it reads 100. */
  lemma ProgressReachesHundredOnlyAtLastStep(step: int)
    requires ValidStep(step)
    ensures 0 < ProgressPercent(step) <= 100
    ensures ProgressPercent(step) == 100 <==> step == StepCount
    ensures PrimaryButtonAt(step) == CompleteButton <==> ProgressPercent(step) == 100
  {
  }

  /** The Previous button is disabled on the first step, exactly where
      pressing it would do nothing. */
  predicate PreviousDisabled(step: int) {
    step == 1
  }

  lemma PreviousDisabledWhereNoOp(step: int)
    requires ValidStep(step)
    ensures PreviousDisabled(step) <==> Prev(step) == step
  {
  }

  /** The wizard's state. */
  class Wizard {
    const userProfile: Record
    var currentStep: int
    var formData: FormData
    var riskAssessment: RiskAssessment

    ghost predicate Valid()
      reads this
    {
      ValidStep(currentStep)
    }

    constructor (userProfile: Record)
      ensures Valid() && currentStep == 1
      ensures this.userProfile == userProfile
      ensures formData == InitialForm(userProfile)
      ensures riskAssessment == InitialRiskAssessment()
    {
      this.userProfile := userProfile;
      currentStep := 1;
      formData := InitialForm(userProfile);
      riskAssessment := InitialRiskAssessment();
    }

    method NextStep()
      requires Valid()
      modifies this`currentStep
      ensures Valid()
      ensures currentStep == Next(old(currentStep))
    {
      if currentStep < StepCount {
        currentStep := currentStep + 1;
      }
    }

    method PrevStep()
      requires Valid()
      modifies this`currentStep
      ensures Valid()
      ensures currentStep == Prev(old(currentStep))
    {
      if currentStep > 1 {
        currentStep := currentStep - 1;
      }
    }

    method UpdateFormData(section: string, field: string, value: string)
      requires Valid()
      modifies this`formData
      ensures Valid()
      ensures formData == UpdateForm(old(formData), section, field, value)
    {
      var fields := if section in formData then formData[section] else map[];
      formData := formData[section := fields[field := Str(value)]];
    }

    /** The profile handed to `onProfileUpdate`. */
    method CompleteOnboarding() returns (profile: Record)
      ensures profile == CompletedProfile(userProfile, formData, riskAssessment.overall)
      ensures profile["riskLevel"] == Str(riskAssessment.overall)
    {
      var personal := Section(formData, "personalInfo");
      var athletic := Section(formData, "athleticInfo");
      profile := userProfile + personal + athletic + map["riskLevel" := Str(riskAssessment.overall)];
    }
  }
}
