/** The string-valued profile form shared by the onboarding wizard and the profile
    editor: its fields, the single-field update, and the two mappings between the
    form and a stored profile row (load: null becomes ""; save: "" becomes null and
    numbers are parsed). */
module ProfileForm {
  import opened JsValues
  import opened Domain

  /** The keys of the form, in declaration order. */
  datatype FormField =
    | EducationLevel | DegreeMajor | GraduationYear | GpaPercentage
    | IntendedDegree | FieldOfStudy | TargetIntakeYear | TargetIntakeTerm | PreferredCountries
    | BudgetMin | BudgetMax | FundingPlan
    | IeltsToeflStatus | IeltsToeflScore | GreGmatStatus | GreGmatScore | SopStatus

  /** A field's value: every input is text except the country list. */
  datatype FieldInput = Text(s: string) | Codes(codes: seq<string>)

  /** `formData[field]`. */
  function Get(form: FormData, f: FormField): (v: FieldInput)
    ensures v.Codes? <==> f == PreferredCountries
  {
    match f
    case EducationLevel => Text(form.education_level)
    case DegreeMajor => Text(form.degree_major)
    case GraduationYear => Text(form.graduation_year)
    case GpaPercentage => Text(form.gpa_percentage)
    case IntendedDegree => Text(form.intended_degree)
    case FieldOfStudy => Text(form.field_of_study)
    case TargetIntakeYear => Text(form.target_intake_year)
    case TargetIntakeTerm => Text(form.target_intake_term)
    case PreferredCountries => Codes(form.preferred_countries)
    case BudgetMin => Text(form.budget_min)
    case BudgetMax => Text(form.budget_max)
    case FundingPlan => Text(form.funding_plan)
    case IeltsToeflStatus => Text(form.ielts_toefl_status)
    case IeltsToeflScore => Text(form.ielts_toefl_score)
    case GreGmatStatus => Text(form.gre_gmat_status)
    case GreGmatScore => Text(form.gre_gmat_score)
    case SopStatus => Text(form.sop_status)
  }

  /** The value fits the field: a list for the countries, text for every other key. */
  predicate Fits(f: FormField, v: FieldInput) {
    v.Codes? <==> f == PreferredCountries
  }

  /** `{ ...prev, [field]: value }`. */
  function Set(form: FormData, f: FormField, v: FieldInput): FormData
    requires Fits(f, v)
  {
    match f
    case EducationLevel => form.(education_level := v.s)
    case DegreeMajor => form.(degree_major := v.s)
    case GraduationYear => form.(graduation_year := v.s)
    case GpaPercentage => form.(gpa_percentage := v.s)
    case IntendedDegree => form.(intended_degree := v.s)
    case FieldOfStudy => form.(field_of_study := v.s)
    case TargetIntakeYear => form.(target_intake_year := v.s)
    case TargetIntakeTerm => form.(target_intake_term := v.s)
    case PreferredCountries => form.(preferred_countries := v.codes)
    case BudgetMin => form.(budget_min := v.s)
    case BudgetMax => form.(budget_max := v.s)
    case FundingPlan => form.(funding_plan := v.s)
    case IeltsToeflStatus => form.(ielts_toefl_status := v.s)
    case IeltsToeflScore => form.(ielts_toefl_score := v.s)
    case GreGmatStatus => form.(gre_gmat_status := v.s)
    case GreGmatScore => form.(gre_gmat_score := v.s)
    case SopStatus => form.(sop_status := v.s)
  }

  /** An update sets exactly its own field: reading it back gives the new value and
      every other field reads as before. */
  lemma SetChangesOnlyThatField(form: FormData, f: FormField, v: FieldInput, g: FormField)
    requires Fits(f, v)
    ensures Get(Set(form, f, v), g) == if f == g then v else Get(form, g)
  {
  }

  /** Writing back the value a field already holds changes nothing. */
  lemma SetToCurrentValue(form: FormData, f: FormField)
    ensures Fits(f, Get(form, f)) && Set(form, f, Get(form, f)) == form
  {
  }

  // ------------------------------------------------------------ conversions

  /** `parseInt` and `parseFloat`, absent where they give NaN (which is stored as
      null). The string conversions are outside this model. */
  datatype Parsers = Parsers(parseInt: string -> Option<int>, parseFloat: string -> Option<real>)

  /** `toString` on stored numbers. */
  datatype Printers = Printers(ofInt: int -> string, ofReal: real -> string)

  /** `s ? parseInt(s) : null`. */
  function IntOf(s: string, parsers: Parsers): (r: Option<int>)
    ensures s == "" ==> r.None?
  {
    if s == "" then None else parsers.parseInt(s)
  }

  /** `s ? parseFloat(s) : null`. */
  function RealOf(s: string, parsers: Parsers): (r: Option<real>)
    ensures s == "" ==> r.None?
  {
    if s == "" then None else parsers.parseFloat(s)
  }

  /** `list.length > 0 ? list : null`. */
  function ListOrNull(codes: seq<string>): (r: Option<seq<string>>)
    ensures r.None? <==> codes == []
    ensures r.Some? ==> r.value == codes
  {
    if codes == [] then None else Some(codes)
  }

  /** `value?.toString() || ""`. */
  function IntText(o: Option<int>, printers: Printers): (r: string)
    ensures o.None? ==> r == ""
  {
    if o.None? then "" else printers.ofInt(o.value)
  }

  function RealText(o: Option<real>, printers: Printers): (r: string)
    ensures o.None? ==> r == ""
  {
    if o.None? then "" else printers.ofReal(o.value)
  }

  // ------------------------------------------------------------- save side

  function AcademicFrom(form: FormData, parsers: Parsers): Academic {
    Academic(NullIfEmpty(form.education_level), NullIfEmpty(form.degree_major),
      IntOf(form.graduation_year, parsers), RealOf(form.gpa_percentage, parsers))
  }

  function GoalsFrom(form: FormData, parsers: Parsers): Goals {
    Goals(NullIfEmpty(form.intended_degree), NullIfEmpty(form.field_of_study),
      IntOf(form.target_intake_year, parsers), NullIfEmpty(form.target_intake_term),
      ListOrNull(form.preferred_countries))
  }

  function BudgetFrom(form: FormData, parsers: Parsers): Budget {
    Budget(IntOf(form.budget_min, parsers), IntOf(form.budget_max, parsers), NullIfEmpty(form.funding_plan))
  }

  function ExamsFrom(form: FormData, parsers: Parsers): Exams {
    Exams(NullIfEmpty(form.ielts_toefl_status), RealOf(form.ielts_toefl_score, parsers),
      NullIfEmpty(form.gre_gmat_status), IntOf(form.gre_gmat_score, parsers), NullIfEmpty(form.sop_status))
  }

  /** The seventeen data columns of a profile row. */
  datatype ProfileData = ProfileData(academic: Academic, goals: Goals, budget: Budget, exams: Exams)

  /** The data columns a form is saved as. */
  function DataFrom(form: FormData, parsers: Parsers): ProfileData {
    ProfileData(AcademicFrom(form, parsers), GoalsFrom(form, parsers), BudgetFrom(form, parsers), ExamsFrom(form, parsers))
  }

  /** A row's data columns. */
  function DataOf(p: Profile): ProfileData {
    ProfileData(p.academic, p.goals, p.budget, p.exams)
  }

  /** A row with its data columns replaced and its meta columns kept. */
  function WithData(p: Profile, d: ProfileData): (r: Profile)
    ensures DataOf(r) == d
    ensures r.onboarding_completed == p.onboarding_completed && r.onboarding_step == p.onboarding_step
      && r.current_stage == p.current_stage
  {
    p.(academic := d.academic, goals := d.goals, budget := d.budget, exams := d.exams)
  }

  // ------------------------------------------------------------- load side

  /** The form a stored row loads into: `value || ""` for text, `value?.toString() || ""`
      for numbers, `value || []` for the countries. */
  function FormOf(p: Profile, printers: Printers): FormData {
    FormData(
      EmptyIfNull(p.academic.education_level), EmptyIfNull(p.academic.degree_major),
      IntText(p.academic.graduation_year, printers), RealText(p.academic.gpa_percentage, printers),
      EmptyIfNull(p.goals.intended_degree), EmptyIfNull(p.goals.field_of_study),
      IntText(p.goals.target_intake_year, printers), EmptyIfNull(p.goals.target_intake_term),
      GetOr(p.goals.preferred_countries, []),
      IntText(p.budget.budget_min, printers), IntText(p.budget.budget_max, printers),
      EmptyIfNull(p.budget.funding_plan),
      EmptyIfNull(p.exams.ielts_toefl_status), RealText(p.exams.ielts_toefl_score, printers),
      EmptyIfNull(p.exams.gre_gmat_status), IntText(p.exams.gre_gmat_score, printers),
      EmptyIfNull(p.exams.sop_status))
  }

  /** A numeric input the parser reads back exactly as the printer writes it. */
  predicate IntRoundTrips(s: string, parsers: Parsers, printers: Printers) {
    s == "" || (parsers.parseInt(s).Some? && printers.ofInt(parsers.parseInt(s).value) == s)
  }

  predicate RealRoundTrips(s: string, parsers: Parsers, printers: Printers) {
    s == "" || (parsers.parseFloat(s).Some? && printers.ofReal(parsers.parseFloat(s).value) == s)
  }

  /** Saving a form and loading the row back gives the same form, provided each
      numeric input is one the parser and the printer agree on. */
  lemma SaveThenLoad(form: FormData, parsers: Parsers, printers: Printers, p: Profile)
    requires IntRoundTrips(form.graduation_year, parsers, printers)
    requires RealRoundTrips(form.gpa_percentage, parsers, printers)
    requires IntRoundTrips(form.target_intake_year, parsers, printers)
    requires IntRoundTrips(form.budget_min, parsers, printers)
    requires IntRoundTrips(form.budget_max, parsers, printers)
    requires RealRoundTrips(form.ielts_toefl_score, parsers, printers)
    requires IntRoundTrips(form.gre_gmat_score, parsers, printers)
    ensures FormOf(WithData(p, DataFrom(form, parsers)), printers) == form
  {
  }

  /** No stored text is "", no stored list is empty, and every stored number prints to
      a non-empty text that parses back to it: the shape a save produces. */
  predicate Normalized(d: ProfileData, parsers: Parsers, printers: Printers) {
    var a, g, b, e := d.academic, d.goals, d.budget, d.exams;
    a.education_level != Some("") && a.degree_major != Some("") && g.intended_degree != Some("")
    && g.field_of_study != Some("") && g.target_intake_term != Some("") && g.preferred_countries != Some([])
    && b.funding_plan != Some("") && e.ielts_toefl_status != Some("") && e.gre_gmat_status != Some("")
    && e.sop_status != Some("")
    && IntPrintsBack(a.graduation_year, parsers, printers) && RealPrintsBack(a.gpa_percentage, parsers, printers)
    && IntPrintsBack(g.target_intake_year, parsers, printers)
    && IntPrintsBack(b.budget_min, parsers, printers) && IntPrintsBack(b.budget_max, parsers, printers)
    && RealPrintsBack(e.ielts_toefl_score, parsers, printers) && IntPrintsBack(e.gre_gmat_score, parsers, printers)
  }

  predicate IntPrintsBack(o: Option<int>, parsers: Parsers, printers: Printers) {
    o.None? || (printers.ofInt(o.value) != "" && parsers.parseInt(printers.ofInt(o.value)) == o)
  }

  predicate RealPrintsBack(o: Option<real>, parsers: Parsers, printers: Printers) {
    o.None? || (printers.ofReal(o.value) != "" && parsers.parseFloat(printers.ofReal(o.value)) == o)
  }

  /** Loading a normalized row and saving the form unchanged writes the same data back. */
  lemma LoadThenSave(p: Profile, parsers: Parsers, printers: Printers)
    requires Normalized(DataOf(p), parsers, printers)
    ensures DataFrom(FormOf(p, printers), parsers) == DataOf(p)
  {
  }

  /** Saving never stores an empty text or an empty list. */
  lemma SavedDataHasNoEmptyText(form: FormData, parsers: Parsers)
    ensures var d := DataFrom(form, parsers);
      d.academic.education_level != Some("") && d.academic.degree_major != Some("")
      && d.goals.intended_degree != Some("") && d.goals.field_of_study != Some("")
      && d.goals.target_intake_term != Some("") && d.goals.preferred_countries != Some([])
      && d.budget.funding_plan != Some("") && d.exams.ielts_toefl_status != Some("")
      && d.exams.gre_gmat_status != Some("") && d.exams.sop_status != Some("")
  {
  }
}
