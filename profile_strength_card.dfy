/** The profile strength card: the readiness icon, the three level badges with their
    colours and labels, and the short list of missing fields. */
module ProfileStrengthCard {
  import opened JsValues
  import opened Domain
  import opened Seqs
  import opened ProfileStrength
  import opened DashboardPage

  /** The level strings the detailed assessment reports. */
  function AcademicsName(l: AcademicsLevel): string {
    match l
    case Strong => "strong"
    case Moderate => "moderate"
    case Weak => "weak"
  }

  function ExamsName(l: ExamsLevel): string {
    match l
    case Ready => "ready"
    case InProgress => "in_progress"
    case ExamsMissing => "missing"
  }

  function BudgetName(l: BudgetFitLevel): string {
    match l
    case Good => "good"
    case Tight => "tight"
    case Risky => "risky"
  }

  /** A badge's colour scheme. */
  datatype BadgeColor = Success | Warning | Destructive

  /** `strengthColor`: the best levels in success colours, the middle ones in warning
      colours, every other string in the destructive colours. */
  function StrengthColor(level: string): BadgeColor {
    if level == "strong" || level == "ready" || level == "good" then Success
    else if level == "moderate" || level == "in_progress" || level == "tight" then Warning
    else Destructive
  }

  function ColorOfRank(rank: int): BadgeColor {
    if rank == 2 then Success else if rank == 1 then Warning else Destructive
  }

  /** Each badge is coloured by the level's rank alone: the best of the three levels
      in success colours, the middle one in warning colours, the lowest (reached for
      "missing" only through the fallback) in the destructive ones. */
  lemma BadgeColorFollowsRank(a: AcademicsLevel, e: ExamsLevel, b: BudgetFitLevel)
    ensures StrengthColor(AcademicsName(a)) == ColorOfRank(AcademicsRank(a))
    ensures StrengthColor(ExamsName(e)) == ColorOfRank(ExamsRank(e))
    ensures StrengthColor(BudgetName(b)) == ColorOfRank(BudgetRank(b))
  {
  }

  const ACADEMICS_LABEL: map<string, string> := map["strong" := "Strong", "moderate" := "Moderate", "weak" := "Weak"]
  const EXAMS_LABEL: map<string, string> := map["ready" := "Ready", "in_progress" := "In Progress", "missing" := "Missing"]
  const BUDGET_LABEL: map<string, string> := map["good" := "Good", "tight" := "Tight", "risky" := "Risky"]

  /** `LABELS[level] ?? level`. */
  function LabelOf(labels: map<string, string>, level: string): (r: string)
    ensures level in labels ==> r == labels[level]
    ensures level !in labels ==> r == level
  {
    if level in labels then labels[level] else level
  }

  /** Every level the assessment reports has a label of its own, so the fallback to
      the raw string is never used for them. */
  lemma LevelsAllLabelled(a: AcademicsLevel, e: ExamsLevel, b: BudgetFitLevel)
    ensures AcademicsName(a) in ACADEMICS_LABEL && ExamsName(e) in EXAMS_LABEL && BudgetName(b) in BUDGET_LABEL
    ensures LabelOf(ACADEMICS_LABEL, AcademicsName(a)) != AcademicsName(a)
    ensures LabelOf(EXAMS_LABEL, ExamsName(e)) != ExamsName(e)
    ensures LabelOf(BUDGET_LABEL, BudgetName(b)) != BudgetName(b)
  {
  }

  /** The title shows the check icon from a score of 70. */
  predicate ShowsCheckIcon(score: int) {
    score >= 70
  }

  /** The icon agrees with the dashboard: checked exactly when the score is green. */
  lemma IconMatchesDashboardColor(score: int)
    ensures ShowsCheckIcon(score) <==> ReadinessColorOf(score) == Green
  {
  }

  /** The missing list is shown for one to five missing fields. */
  predicate ShowsMissing(missing: seq<string>) {
    0 < |missing| <= 5
  }

  /** The listed labels: the first three. */
  function MissingItems(missing: seq<string>): (r: seq<string>)
    ensures |r| <= 3 && |r| <= |missing| && forall i :: 0 <= i < |r| ==> r[i] == missing[i]
  {
    Take(missing, 3)
  }

  /** The "+k more" line, present beyond three. */
  function MoreCount(missing: seq<string>): (k: Option<nat>)
    ensures k.Some? <==> |missing| > 3
  {
    if |missing| > 3 then Some(|missing| - 3) else None
  }

  /** The list and the "+k more" line account for every missing field, each once. */
  lemma MissingListAccountsForAll(missing: seq<string>)
    ensures |MissingItems(missing)| + GetOr(MoreCount(missing), 0) == |missing|
    ensures MoreCount(missing).None? ==> MissingItems(missing) == missing
  {
  }

  /** For a real profile the list is shown exactly when ten to fourteen of the fifteen
      fields are complete; it never is for an absent profile. */
  lemma MissingShownForNearlyComplete(profile: Option<Profile>)
    ensures var s := StrengthOf(profile);
      ShowsMissing(s.missingFields) <==> 10 <= s.completedFields <= 14
    ensures !ShowsMissing(StrengthOf(None).missingFields)
  {
    StrengthInvariants(profile);
    StrengthInvariants(None);
  }
}
