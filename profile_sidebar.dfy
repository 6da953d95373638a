/** The counsellor page's profile sidebar: its own 100-point weighted profile strength,
    the status icons, the hint under the strength bar, and the country chips. */
module ProfileSidebar {
  import opened JsValues
  import opened Domain

  // ------------------------------------------------------------- strength

  /** Points for the academic block (25 at most): 5 each for level, major and
      graduation year, 10 for a GPA; falsy values (null, "", 0) earn nothing. */
  function AcademicPoints(a: Academic): nat {
    (if TruthyText(a.education_level) then 5 else 0)
    + (if TruthyText(a.degree_major) then 5 else 0)
    + (if TruthyInt(a.graduation_year) then 5 else 0)
    + (if TruthyReal(a.gpa_percentage) then 10 else 0)
  }

  /** Points for the goals block (25 at most); the intake term is not scored. */
  function GoalsPoints(g: Goals): nat {
    (if TruthyText(g.intended_degree) then 5 else 0)
    + (if TruthyText(g.field_of_study) then 5 else 0)
    + (if TruthyInt(g.target_intake_year) then 5 else 0)
    + (if NonEmptyList(g.preferred_countries) then 10 else 0)
  }

  /** Points for the budget block (15 at most): 10 only when both bounds are truthy. */
  function BudgetPoints(b: Budget): nat {
    (if TruthyInt(b.budget_min) && TruthyInt(b.budget_max) then 10 else 0)
    + (if TruthyText(b.funding_plan) then 5 else 0)
  }

  /** Points for the exams block (35 at most). */
  function ExamsPoints(e: Exams): nat {
    (if e.ielts_toefl_status == Some("taken") then 15 else if e.ielts_toefl_status == Some("planned") then 5 else 0)
    + (if e.gre_gmat_status == Some("taken") then 10 else if e.gre_gmat_status == Some("planned") then 3 else 0)
    + (if e.sop_status == Some("ready") then 10 else if e.sop_status == Some("draft") then 5 else 0)
  }

  /** The points a profile earns out of 100. */
  function SidebarPoints(p: Profile): nat {
    AcademicPoints(p.academic) + GoalsPoints(p.goals) + BudgetPoints(p.budget) + ExamsPoints(p.exams)
  }

  /** The sidebar's `calculateProfileStrength`: adds up points block by block against a
      running total of 100 and rounds `score / total * 100`; since the total is 100,
      the result is the points themselves. */
  method SidebarStrength(profile: Option<Profile>) returns (strength: int)
    ensures profile.None? ==> strength == 0
    ensures profile.Some? ==> strength == SidebarPoints(profile.value)
    ensures 0 <= strength <= 100
  {
    if profile.None? {
      return 0;
    }
    var p := profile.value;
    var score := 0;
    var total := 0;

    total := total + 25;
    score := score + (if TruthyText(p.academic.education_level) then 5 else 0);
    score := score + (if TruthyText(p.academic.degree_major) then 5 else 0);
    score := score + (if TruthyInt(p.academic.graduation_year) then 5 else 0);
    score := score + (if TruthyReal(p.academic.gpa_percentage) then 10 else 0);
    assert score == AcademicPoints(p.academic);

    total := total + 25;
    ghost var before := score;
    score := score + (if TruthyText(p.goals.intended_degree) then 5 else 0);
    score := score + (if TruthyText(p.goals.field_of_study) then 5 else 0);
    score := score + (if TruthyInt(p.goals.target_intake_year) then 5 else 0);
    score := score + (if NonEmptyList(p.goals.preferred_countries) then 10 else 0);
    assert score == before + GoalsPoints(p.goals);
    before := score;

    total := total + 15;
    score := score + (if TruthyInt(p.budget.budget_min) && TruthyInt(p.budget.budget_max) then 10 else 0);
    score := score + (if TruthyText(p.budget.funding_plan) then 5 else 0);
    assert score == before + BudgetPoints(p.budget);
    before := score;

    total := total + 35;
    score := score + (if p.exams.ielts_toefl_status == Some("taken") then 15 else if p.exams.ielts_toefl_status == Some("planned") then 5 else 0);
    score := score + (if p.exams.gre_gmat_status == Some("taken") then 10 else if p.exams.gre_gmat_status == Some("planned") then 3 else 0);
    score := score + (if p.exams.sop_status == Some("ready") then 10 else if p.exams.sop_status == Some("draft") then 5 else 0);
    assert score == before + ExamsPoints(p.exams);

    strength := RoundDiv(score * 100, total);
    RoundDivOfMultiple(score, 100);
  }

  /** The full 100 points need every scored field truthy, both exams taken and the
      statement of purpose ready, and nothing less gives them. */
  lemma FullMarksExactly(p: Profile)
    ensures SidebarPoints(p) == 100 <==>
      TruthyText(p.academic.education_level) && TruthyText(p.academic.degree_major)
      && TruthyInt(p.academic.graduation_year) && TruthyReal(p.academic.gpa_percentage)
      && TruthyText(p.goals.intended_degree) && TruthyText(p.goals.field_of_study)
      && TruthyInt(p.goals.target_intake_year) && NonEmptyList(p.goals.preferred_countries)
      && TruthyInt(p.budget.budget_min) && TruthyInt(p.budget.budget_max) && TruthyText(p.budget.funding_plan)
      && p.exams.ielts_toefl_status == Some("taken") && p.exams.gre_gmat_status == Some("taken")
      && p.exams.sop_status == Some("ready")
  {
  }

  /** The intake term, the exam scores and the onboarding meta fields never change
      the score; a GPA of 0 scores like no GPA, and a zero budget bound like none. */
  lemma UnscoredInputs(p: Profile, term: Option<string>, ielts: Option<real>, gre: Option<int>)
    ensures SidebarPoints(p.(goals := p.goals.(target_intake_term := term))) == SidebarPoints(p)
    ensures SidebarPoints(p.(exams := p.exams.(ielts_toefl_score := ielts, gre_gmat_score := gre))) == SidebarPoints(p)
    ensures SidebarPoints(p.(academic := p.academic.(gpa_percentage := Some(0.0))))
         == SidebarPoints(p.(academic := p.academic.(gpa_percentage := None)))
    ensures SidebarPoints(p.(budget := p.budget.(budget_min := Some(0))))
         == SidebarPoints(p.(budget := p.budget.(budget_min := None)))
  {
  }

  // ------------------------------------------------------------ display rules

  datatype StatusIcon = WarningIcon | CheckIcon | ClockIcon

  /** `getStatusIcon`: check for taken/ready, clock for planned/draft, warning for a
      missing or any other status. */
  function GetStatusIcon(status: Option<string>): (r: StatusIcon)
    ensures r == CheckIcon <==> status == Some("taken") || status == Some("ready")
    ensures r == ClockIcon <==> status == Some("planned") || status == Some("draft")
    ensures !TruthyText(status) ==> r == WarningIcon
  {
    if !TruthyText(status) then WarningIcon
    else if status.value == "taken" || status.value == "ready" then CheckIcon
    else if status.value == "planned" || status.value == "draft" then ClockIcon
    else WarningIcon
  }

  /** `COUNTRIES.find(c => c.value === code)?.label || code`. */
  function CountryLabel(code: string, countries: seq<Country>): (r: string)
    ensures (exists i :: 0 <= i < |countries| && countries[i].code == code) || r == code
    ensures forall i :: 0 <= i < |countries| && countries[i].code == code ==>
      exists j :: 0 <= j <= i && countries[j].code == code && r == (if countries[j].name == "" then code else countries[j].name)
    decreases |countries|
  {
    if countries == [] then code
    else if countries[0].code == code then (if countries[0].name == "" then code else countries[0].name)
    else CountryLabel(code, countries[1..])
  }

  /** The preferred countries' display labels, in list order; no profile or no list
      gives none. */
  function CountryLabels(profile: Option<Profile>): (r: seq<string>)
    ensures profile.Some? && profile.value.goals.preferred_countries.Some? ==>
      |r| == |profile.value.goals.preferred_countries.value|
      && forall i :: 0 <= i < |r| ==> r[i] == CountryLabel(profile.value.goals.preferred_countries.value[i], COUNTRIES)
    ensures profile.None? || profile.value.goals.preferred_countries.None? ==> r == []
  {
    if profile.None? || profile.value.goals.preferred_countries.None? then []
    else
      var codes := profile.value.goals.preferred_countries.value;
      seq(|codes|, i requires 0 <= i < |codes| => CountryLabel(codes[i], COUNTRIES))
  }

  /** A code that is not a known country shows itself. */
  lemma UnknownCodesShowThemselves(code: string)
    requires forall i :: 0 <= i < |COUNTRIES| ==> COUNTRIES[i].code != code
    ensures CountryLabel(code, COUNTRIES) == code
  {
  }

  /** The chips under "Countries": the first three labels, and the number of the rest
      when there are more than three. */
  datatype Chips = Chips(shown: seq<string>, more: Option<int>)

  function CountryChips(labels: seq<string>): (r: Chips)
    ensures |r.shown| == if |labels| < 3 then |labels| else 3
    ensures forall i :: 0 <= i < |r.shown| ==> r.shown[i] == labels[i]
    ensures r.more.Some? <==> |labels| > 3
    ensures r.more.Some? ==> r.more.value == |labels| - 3 && |r.shown| + r.more.value == |labels|
  {
    Chips(if |labels| < 3 then labels else labels[..3], if |labels| > 3 then Some(|labels| - 3) else None)
  }

  datatype Hint = CompleteMoreFields | GoodProgress | StrongProfile

  /** The hint under the strength bar. */
  function StrengthHint(strength: int): (r: Hint)
    ensures r == CompleteMoreFields <==> strength < 50
    ensures r == GoodProgress <==> 50 <= strength < 75
    ensures r == StrongProfile <==> strength >= 75
  {
    if strength < 50 then CompleteMoreFields else if strength < 75 then GoodProgress else StrongProfile
  }
}
