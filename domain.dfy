/** The records the application stores and passes around: a student's profile, a
    university on the shortlist or among the recommendations, an application task,
    and the string-valued form the onboarding wizard and the profile editor edit. */
module Domain {
  import opened JsValues

  /** "Academic Background" columns of a profile row. */
  datatype Academic = Academic(
    education_level: Option<string>,
    degree_major: Option<string>,
    graduation_year: Option<int>,
    gpa_percentage: Option<real>)

  /** "Study Goals" columns of a profile row. */
  datatype Goals = Goals(
    intended_degree: Option<string>,
    field_of_study: Option<string>,
    target_intake_year: Option<int>,
    target_intake_term: Option<string>,
    preferred_countries: Option<seq<string>>)

  /** "Budget" columns of a profile row. */
  datatype Budget = Budget(
    budget_min: Option<int>,
    budget_max: Option<int>,
    funding_plan: Option<string>)

  /** "Exams & Readiness" columns of a profile row. */
  datatype Exams = Exams(
    ielts_toefl_status: Option<string>,
    ielts_toefl_score: Option<real>,
    gre_gmat_status: Option<string>,
    gre_gmat_score: Option<int>,
    sop_status: Option<string>)

  /** A row of the `profiles` table (identifiers and timestamps left out). */
  datatype Profile = Profile(
    academic: Academic,
    goals: Goals,
    budget: Budget,
    exams: Exams,
    onboarding_completed: bool,
    onboarding_step: int,
    current_stage: string)

  const NoAcademic := Academic(None, None, None, None)
  const NoGoals := Goals(None, None, None, None, None)
  const NoBudget := Budget(None, None, None)
  const NoExams := Exams(None, None, None, None, None)

  /** A university row; an absent `is_shortlisted` or `is_locked` reads as false. */
  datatype University = University(
    id: Option<string>,
    name: string,
    country: string,
    degree_type: string,
    field_of_study: Option<string>,
    tuition_per_year: Option<int>,
    living_cost_per_year: Option<int>,
    category: string,
    acceptance_likelihood: Option<string>,
    is_shortlisted: bool,
    is_locked: bool)

  /** A row of the `application_tasks` table (owner and timestamps left out). */
  datatype ApplicationTask = ApplicationTask(
    id: string,
    university_id: Option<string>,
    title: string,
    description: Option<string>,
    category: string,
    priority: string,
    is_completed: bool,
    completed_at: Option<string>,
    due_date: Option<string>,
    is_ai_generated: bool,
    sort_order: int)

  /** The onboarding and profile-editor form: every input is kept as a string,
      the country choice as a list of codes. */
  datatype FormData = FormData(
    education_level: string,
    degree_major: string,
    graduation_year: string,
    gpa_percentage: string,
    intended_degree: string,
    field_of_study: string,
    target_intake_year: string,
    target_intake_term: string,
    preferred_countries: seq<string>,
    budget_min: string,
    budget_max: string,
    funding_plan: string,
    ielts_toefl_status: string,
    ielts_toefl_score: string,
    gre_gmat_status: string,
    gre_gmat_score: string,
    sop_status: string)

  /** The form with every input empty. */
  const EmptyForm := FormData("", "", "", "", "", "", "", "", [], "", "", "", "", "", "", "", "")

  /** A country choice: its code and the name shown for it. */
  datatype Country = Country(code: string, name: string)

  /** The selectable study destinations, in display order. */
  const COUNTRIES: seq<Country> := [
    Country("US", "United States"), Country("UK", "United Kingdom"), Country("CA", "Canada"),
    Country("AU", "Australia"), Country("DE", "Germany"), Country("NL", "Netherlands"),
    Country("IE", "Ireland"), Country("FR", "France"), Country("NZ", "New Zealand"),
    Country("SG", "Singapore")]

  /** The task categories, in the order the task list renders them. */
  const CATEGORY_ORDER: seq<string> := ["document", "exam", "application", "financial", "other"]

  /** The university categories. */
  const DREAM := "dream"
  const TARGET := "target"
  const SAFE := "safe"

  /** Gateway statuses that have their own response codes. */
  const RATE_LIMITED := 429
  const CREDITS_EXHAUSTED := 402
}
