/** The two profile scoring engines: the 15-field completion checklist with its
    percentage and ordered list of missing labels, and the detailed readiness
    assessment (academics band, exams band, budget fit, weighted score). */
module ProfileStrength {
  import opened JsValues
  import opened Domain
  import opened Seqs
  import Text

  // ---------------------------------------------------------------- checklist

  /** The columns the checklist inspects. */
  datatype FieldKey =
    | EducationLevel | DegreeMajor | GraduationYear | GpaPercentage
    | IntendedDegree | FieldOfStudy | TargetIntakeYear | TargetIntakeTerm | PreferredCountries
    | BudgetMin | BudgetMax | FundingPlan
    | IeltsToeflStatus | GreGmatStatus | SopStatus

  /** The checklist, in declaration order. */
  const PROFILE_FIELDS: seq<FieldKey> := [
    EducationLevel, DegreeMajor, GraduationYear, GpaPercentage,
    IntendedDegree, FieldOfStudy, TargetIntakeYear, TargetIntakeTerm, PreferredCountries,
    BudgetMin, BudgetMax, FundingPlan,
    IeltsToeflStatus, GreGmatStatus, SopStatus]

  /** The label shown for a missing field. */
  function Label(k: FieldKey): string {
    match k
    case EducationLevel => "Education Level"
    case DegreeMajor => "Degree/Major"
    case GraduationYear => "Graduation Year"
    case GpaPercentage => "GPA/Percentage"
    case IntendedDegree => "Intended Degree"
    case FieldOfStudy => "Field of Study"
    case TargetIntakeYear => "Target Intake Year"
    case TargetIntakeTerm => "Target Intake Term"
    case PreferredCountries => "Preferred Countries"
    case BudgetMin => "Budget (Min)"
    case BudgetMax => "Budget (Max)"
    case FundingPlan => "Funding Plan"
    case IeltsToeflStatus => "IELTS/TOEFL Status"
    case GreGmatStatus => "GRE/GMAT Status"
    case SopStatus => "SOP Status"
  }

  /** A column value as the checklist sees it: null, a string, a number, or an array
      of some length. */
  datatype FieldValue = Missing | Str(s: string) | Num | List(len: nat)

  /** A field is complete when it is not null and is a non-empty array or has a
      non-blank string form; every number has a non-blank string form. */
  predicate IsCompleted(v: FieldValue) {
    match v
    case Missing => false
    case Str(s) => Text.Trim(s) != ""
    case Num => true
    case List(n) => n > 0
  }

  function TextValue(o: Option<string>): FieldValue {
    match o
    case None => Missing
    case Some(s) => Str(s)
  }

  function NumValue<T>(o: Option<T>): FieldValue {
    if o.None? then Missing else Num
  }

  function ListValue<T>(o: Option<seq<T>>): FieldValue {
    match o
    case None => Missing
    case Some(xs) => List(|xs|)
  }

  /** `profile[field.key]`. */
  function ValueOf(p: Profile, k: FieldKey): FieldValue {
    match k
    case EducationLevel => TextValue(p.academic.education_level)
    case DegreeMajor => TextValue(p.academic.degree_major)
    case GraduationYear => NumValue(p.academic.graduation_year)
    case GpaPercentage => NumValue(p.academic.gpa_percentage)
    case IntendedDegree => TextValue(p.goals.intended_degree)
    case FieldOfStudy => TextValue(p.goals.field_of_study)
    case TargetIntakeYear => NumValue(p.goals.target_intake_year)
    case TargetIntakeTerm => TextValue(p.goals.target_intake_term)
    case PreferredCountries => ListValue(p.goals.preferred_countries)
    case BudgetMin => NumValue(p.budget.budget_min)
    case BudgetMax => NumValue(p.budget.budget_max)
    case FundingPlan => TextValue(p.budget.funding_plan)
    case IeltsToeflStatus => TextValue(p.exams.ielts_toefl_status)
    case GreGmatStatus => TextValue(p.exams.gre_gmat_status)
    case SopStatus => TextValue(p.exams.sop_status)
  }

  predicate Done(p: Profile, k: FieldKey) {
    IsCompleted(ValueOf(p, k))
  }

  /** A string field counts exactly when it holds a character that is not white space;
      a numeric field counts whenever it is set, 0 included. */
  lemma CompletionRule(p: Profile)
    ensures Done(p, DegreeMajor) <==> (p.academic.degree_major.Some?
      && exists i :: 0 <= i < |p.academic.degree_major.value| && !Text.IsSpace(p.academic.degree_major.value[i]))
    ensures Done(p, GraduationYear) <==> p.academic.graduation_year.Some?
    ensures Done(p, PreferredCountries) <==> NonEmptyList(p.goals.preferred_countries)
  {
    if p.academic.degree_major.Some? {
      Text.TrimEmptyIffAllSpace(p.academic.degree_major.value);
    }
  }

  /** The fields among `fields` that are not complete, in order. */
  function MissingKeys(p: Profile, fields: seq<FieldKey>): seq<FieldKey>
    decreases |fields|
  {
    if fields == [] then []
    else
      var k := fields[|fields| - 1];
      MissingKeys(p, fields[..|fields| - 1]) + (if Done(p, k) then [] else [k])
  }

  /** How many of `fields` are complete. */
  function CompletedOf(p: Profile, fields: seq<FieldKey>): nat
    decreases |fields|
  {
    if fields == [] then 0
    else CompletedOf(p, fields[..|fields| - 1]) + (if Done(p, fields[|fields| - 1]) then 1 else 0)
  }

  /** `fields.map(f => f.label)`. */
  function Labels(fields: seq<FieldKey>): (r: seq<string>)
    ensures |r| == |fields|
  {
    seq(|fields|, i requires 0 <= i < |fields| => Label(fields[i]))
  }

  lemma LabelsSnoc(fields: seq<FieldKey>, k: FieldKey)
    ensures Labels(fields + [k]) == Labels(fields) + [Label(k)]
  {
    assert forall i :: 0 <= i < |fields| ==> (fields + [k])[i] == fields[i];
  }

  /** The labels of the incomplete fields, in checklist order. */
  function MissingOf(p: Profile, fields: seq<FieldKey>): seq<string> {
    Labels(MissingKeys(p, fields))
  }

  /** The checklist result. */
  datatype Strength = Strength(percentage: int, completedFields: nat, totalFields: nat, missingFields: seq<string>)

  /** What the checklist reports for a profile (or for no profile). */
  function StrengthOf(profile: Option<Profile>): Strength {
    match profile
    case None => Strength(0, 0, |PROFILE_FIELDS|, Labels(PROFILE_FIELDS))
    case Some(p) =>
      var c := CompletedOf(p, PROFILE_FIELDS);
      Strength(RoundDiv(c * 100, |PROFILE_FIELDS|), c, |PROFILE_FIELDS|, MissingOf(p, PROFILE_FIELDS))
  }

  /** `calculateProfileStrength`: one pass over the checklist, counting complete fields
      and collecting the labels of the others. */
  method CalculateProfileStrength(profile: Option<Profile>) returns (r: Strength)
    ensures r == StrengthOf(profile)
  {
    if profile.None? {
      return Strength(0, 0, |PROFILE_FIELDS|, Labels(PROFILE_FIELDS));
    }
    var p := profile.value;
    var missingFields: seq<string> := [];
    var completedFields := 0;
    for i := 0 to |PROFILE_FIELDS|
      invariant missingFields == MissingOf(p, PROFILE_FIELDS[..i])
      invariant completedFields == CompletedOf(p, PROFILE_FIELDS[..i])
    {
      var field := PROFILE_FIELDS[i];
      assert PROFILE_FIELDS[..i + 1][..i] == PROFILE_FIELDS[..i];
      if IsCompleted(ValueOf(p, field)) {
        completedFields := completedFields + 1;
      } else {
        LabelsSnoc(MissingKeys(p, PROFILE_FIELDS[..i]), field);
        missingFields := missingFields + [Label(field)];
      }
    }
    assert PROFILE_FIELDS[..|PROFILE_FIELDS|] == PROFILE_FIELDS;
    r := Strength(RoundDiv(completedFields * 100, |PROFILE_FIELDS|), completedFields, |PROFILE_FIELDS|, missingFields);
  }

  /** Every field is either counted or listed as missing, never both. */
  lemma {:induction false} CompletedPlusMissing(p: Profile, fields: seq<FieldKey>)
    ensures CompletedOf(p, fields) + |MissingKeys(p, fields)| == |fields|
    decreases |fields|
  {
    if fields != [] {
      CompletedPlusMissing(p, fields[..|fields| - 1]);
    }
  }

  /** The missing fields keep the checklist order: they are a sublist of it. */
  lemma {:induction false} MissingInChecklistOrder(p: Profile, fields: seq<FieldKey>)
    ensures IsSubsequence(MissingKeys(p, fields), fields)
    decreases |fields|
  {
    if fields != [] {
      var init, k := fields[..|fields| - 1], fields[|fields| - 1];
      MissingInChecklistOrder(p, init);
      assert fields == init + [k];
      var m := MissingKeys(p, init);
      if Done(p, k) {
        assert MissingKeys(p, fields) == m;
        SubsequenceExtend(m, init, k);
        assert IsSubsequence(m, init + [k]);
      } else {
        assert MissingKeys(p, fields) == m + [k];
        SubsequenceExtendBoth(m, init, k);
      }
    }
  }

  /** A field is listed as missing exactly when it is on the checklist and incomplete. */
  lemma {:induction false} MissingExactly(p: Profile, fields: seq<FieldKey>, k: FieldKey)
    ensures k in MissingKeys(p, fields) <==> k in fields && !Done(p, k)
    decreases |fields|
  {
    if fields != [] {
      var init, last := fields[..|fields| - 1], fields[|fields| - 1];
      assert fields == init + [last];
      MissingExactly(p, init, k);
    }
  }

  /** No profile: nothing complete, percentage 0, all 15 labels missing in order. */
  lemma NullProfileStrength()
    ensures StrengthOf(None) == Strength(0, 0, 15, [
      "Education Level", "Degree/Major", "Graduation Year", "GPA/Percentage",
      "Intended Degree", "Field of Study", "Target Intake Year", "Target Intake Term",
      "Preferred Countries", "Budget (Min)", "Budget (Max)", "Funding Plan",
      "IELTS/TOEFL Status", "GRE/GMAT Status", "SOP Status"])
  {
  }

  /** The percentage of c completed fields out of 15 lies in 0..100 and is 100 exactly
      when all 15 are complete. */
  lemma PercentageBounds(c: nat)
    requires c <= 15
    ensures 0 <= RoundDiv(c * 100, 15) <= 100
    ensures RoundDiv(c * 100, 15) == 100 <==> c == 15
  {
  }

  /** For any input: completed + missing = 15, the percentage lies in 0..100, and it is
      100 exactly when nothing is missing. */
  lemma StrengthInvariants(profile: Option<Profile>)
    ensures var s := StrengthOf(profile);
      s.totalFields == 15 && s.completedFields + |s.missingFields| == 15
      && 0 <= s.percentage <= 100
      && (s.percentage == 100 <==> s.missingFields == [])
  {
    if profile.Some? {
      var p := profile.value;
      CompletedPlusMissing(p, PROFILE_FIELDS);
      PercentageBounds(CompletedOf(p, PROFILE_FIELDS));
    }
  }

  /** `100 * completed / 15` never falls on a half, so rounding it is exact whatever
      the direction ties would take. */
  lemma PercentageNeverHalf(c: int)
    ensures (200 * c + 15) % 30 != 0
  {
  }

  // ---------------------------------------------------------- detailed score

  datatype AcademicsLevel = Strong | Moderate | Weak
  datatype ExamsLevel = Ready | InProgress | ExamsMissing
  datatype BudgetFitLevel = Good | Tight | Risky

  datatype Detailed = Detailed(academics: AcademicsLevel, exams: ExamsLevel, budgetFit: BudgetFitLevel, overallReadinessScore: int)

  /** The academics band: a GPA on the 4-point scale or a percentage decides it;
      without a GPA, an education level and a major together make it moderate. */
  function AcademicsOf(a: Academic): AcademicsLevel {
    match a.gpa_percentage
    case Some(gpa) =>
      if gpa >= 85.0 || (gpa <= 4.0 && gpa >= 3.5) then Strong
      else if gpa >= 70.0 || (gpa <= 4.0 && gpa >= 3.0) then Moderate
      else Weak
    case None =>
      if TruthyText(a.education_level) && TruthyText(a.degree_major) then Moderate else Weak
  }

  /** The exams band: both exams taken, any exam planned or taken, or neither. */
  function ExamsOf(e: Exams): ExamsLevel {
    var ieltsReady := e.ielts_toefl_status == Some("taken");
    var greReady := e.gre_gmat_status == Some("taken");
    if ieltsReady && greReady then Ready
    else if e.ielts_toefl_status == Some("planned") || e.gre_gmat_status == Some("planned") || ieltsReady || greReady
    then InProgress
    else ExamsMissing
  }

  /** The yearly budget the fit is judged on: the midpoint of a proper range, else
      whichever bound is set. */
  function BudgetAverage(minB: int, maxB: int): real {
    if maxB > minB then (minB + maxB) as real / 2.0
    else if minB != 0 then minB as real
    else maxB as real
  }

  /** The budget fit: risky unless some bound is positive; then good from 35000 a year,
      tight from 20000. */
  function BudgetFitOf(b: Budget): BudgetFitLevel {
    var minB := GetOr(b.budget_min, 0);
    var maxB := GetOr(b.budget_max, 0);
    if minB > 0 || maxB > 0 then
      var avg := BudgetAverage(minB, maxB);
      if avg >= 35000.0 then Good else if avg >= 20000.0 then Tight else Risky
    else Risky
  }

  function AcademicsScore(l: AcademicsLevel): int {
    match l case Strong => 90 case Moderate => 60 case Weak => 30
  }

  function ExamsScore(l: ExamsLevel): int {
    match l case Ready => 90 case InProgress => 50 case ExamsMissing => 20
  }

  function BudgetScore(l: BudgetFitLevel): int {
    match l case Good => 85 case Tight => 55 case Risky => 35
  }

  /** `Math.round(0.4 a + 0.35 e + 0.25 b)`, computed on hundredths. */
  function Readiness(a: AcademicsLevel, e: ExamsLevel, b: BudgetFitLevel): int {
    RoundDiv(40 * AcademicsScore(a) + 35 * ExamsScore(e) + 25 * BudgetScore(b), 100)
  }

  /** `calculateProfileStrengthDetailed`. */
  function DetailedOf(profile: Option<Profile>): (r: Detailed)
    ensures profile.None? ==> r == Detailed(Weak, ExamsMissing, Risky, 0)
    ensures profile.Some? ==> 28 <= r.overallReadinessScore <= 89
  {
    match profile
    case None => Detailed(Weak, ExamsMissing, Risky, 0)
    case Some(p) =>
      var a, e, b := AcademicsOf(p.academic), ExamsOf(p.exams), BudgetFitOf(p.budget);
      ReadinessRange(a, e, b);
      Detailed(a, e, b, Readiness(a, e, b))
  }

  /** Rank of a band, higher is better. */
  function AcademicsRank(l: AcademicsLevel): int { match l case Strong => 2 case Moderate => 1 case Weak => 0 }
  function ExamsRank(l: ExamsLevel): int { match l case Ready => 2 case InProgress => 1 case ExamsMissing => 0 }
  function BudgetRank(l: BudgetFitLevel): int { match l case Good => 2 case Tight => 1 case Risky => 0 }

  /** The weighted sum always ends in .25 or .75, so rounding it is never a tie. */
  lemma ReadinessNeverHalf(a: AcademicsLevel, e: ExamsLevel, b: BudgetFitLevel)
    ensures var s := 40 * AcademicsScore(a) + 35 * ExamsScore(e) + 25 * BudgetScore(b);
      s % 100 == 25 || s % 100 == 75
  {
  }

  /** The score of any non-null profile lies between 28 (all bands lowest) and 89
      (all bands highest). */
  lemma ReadinessRange(a: AcademicsLevel, e: ExamsLevel, b: BudgetFitLevel)
    ensures 28 <= Readiness(a, e, b) <= 89
  {
    var s := 40 * AcademicsScore(a) + 35 * ExamsScore(e) + 25 * BudgetScore(b);
    assert 2775 <= s <= 8875;
    RoundDivMonotone(2775, s, 100);
    RoundDivMonotone(s, 8875, 100);
  }

  /** Improving any band never lowers the readiness score. */
  lemma ReadinessMonotone(a: AcademicsLevel, e: ExamsLevel, b: BudgetFitLevel,
                          a': AcademicsLevel, e': ExamsLevel, b': BudgetFitLevel)
    requires AcademicsRank(a) <= AcademicsRank(a') && ExamsRank(e) <= ExamsRank(e') && BudgetRank(b) <= BudgetRank(b')
    ensures Readiness(a, e, b) <= Readiness(a', e', b')
  {
    var s := 40 * AcademicsScore(a) + 35 * ExamsScore(e) + 25 * BudgetScore(b);
    var s' := 40 * AcademicsScore(a') + 35 * ExamsScore(e') + 25 * BudgetScore(b');
    assert AcademicsScore(a) <= AcademicsScore(a') && ExamsScore(e) <= ExamsScore(e') && BudgetScore(b) <= BudgetScore(b');
    RoundDivMonotone(s, s', 100);
  }

  /** A GPA above the 4-point scale but below 70 falls into neither scale's bands. */
  lemma GpaBetweenScalesIsWeak(a: Academic)
    requires a.gpa_percentage.Some? && 4.0 < a.gpa_percentage.value < 70.0
    ensures AcademicsOf(a) == Weak
  {
  }

  /** Exams are ready exactly when both are taken, and count as missing exactly when
      neither status is "planned" or "taken". */
  lemma ExamsBands(e: Exams)
    ensures ExamsOf(e) == Ready <==> e.ielts_toefl_status == Some("taken") && e.gre_gmat_status == Some("taken")
    ensures ExamsOf(e) == ExamsMissing <==>
      e.ielts_toefl_status !in {Some("taken"), Some("planned")} && e.gre_gmat_status !in {Some("taken"), Some("planned")}
  {
  }

  /** The budget is judged on the midpoint when the range is proper; otherwise on the
      minimum, which is then positive. */
  lemma BudgetFitBands(b: Budget)
    ensures var minB, maxB := GetOr(b.budget_min, 0), GetOr(b.budget_max, 0);
      (minB <= 0 && maxB <= 0 ==> BudgetFitOf(b) == Risky)
      && (maxB > minB && maxB > 0 ==>
            (BudgetFitOf(b) == Good <==> minB + maxB >= 70000)
            && (BudgetFitOf(b) == Tight <==> 40000 <= minB + maxB < 70000))
      && (0 < minB && maxB <= minB ==>
            (BudgetFitOf(b) == Good <==> minB >= 35000)
            && (BudgetFitOf(b) == Tight <==> 20000 <= minB < 35000))
  {
  }
}
