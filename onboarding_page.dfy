/** The onboarding page: the per-step validation and the gating of the next and
    complete buttons. */
module OnboardingPage {
  import opened JsValues
  import opened Domain
  import opened ProfileForm
  import opened ProfileEditor
  import opened OnboardingHook

  /** The step that checks an input, 0 for the inputs no step checks. */
  function CheckedAt(f: FormField): (step: int)
    ensures 0 <= step <= 4
  {
    match f
    case EducationLevel | DegreeMajor | GraduationYear | GpaPercentage => 1
    case IntendedDegree | FieldOfStudy | TargetIntakeYear | PreferredCountries => 2
    case BudgetMin | BudgetMax | FundingPlan => 3
    case IeltsToeflStatus | GreGmatStatus | SopStatus => 4
    case _ => 0
  }

  /** An input is empty: "" for text, no code for the country list. */
  predicate IsEmpty(v: FieldInput) {
    match v
    case Text(s) => s == ""
    case Codes(cs) => cs == []
  }

  /** Both budget bounds are filled, parse, and the minimum is above the maximum. */
  predicate StepBudgetInverted(form: FormData, parsers: Parsers) {
    form.budget_max != "" && BudgetInverted(form, parsers)
  }

  /** The error a step reports for one input: the order message on the maximum budget
      takes precedence, every other checked input errs only when empty. */
  function StepError(step: int, form: FormData, f: FormField, parsers: Parsers): Option<string> {
    if step < 1 || CheckedAt(f) != step then None
    else if f == BudgetMax && StepBudgetInverted(form, parsers) then Some(BUDGET_ORDER_MESSAGE)
    else if IsEmpty(Get(form, f)) then Some(MissingMessage(f))
    else None
  }

  /** The errors of a step, as `StepError` gives them. */
  predicate ReportsStep(errors: map<FormField, string>, step: int, form: FormData, parsers: Parsers) {
    forall f :: (f in errors <==> StepError(step, form, f, parsers).Some?)
      && (f in errors ==> errors[f] == StepError(step, form, f, parsers).value)
  }

  /** `validateStep`: the errors of the current step, written one check at a time;
      the step passes iff none was written. */
  method ValidateStep(step: int, form: FormData, parsers: Parsers) returns (ok: bool, errors: map<FormField, string>)
    ensures ReportsStep(errors, step, form, parsers)
    ensures ok <==> errors == map[]
  {
    errors := map[];
    if step == 1 {
      errors := AcademicStepErrors(form, parsers);
    }
    if step == 2 {
      errors := GoalsStepErrors(form, parsers);
    }
    if step == 3 {
      errors := BudgetStepErrors(form, parsers);
    }
    if step == 4 {
      errors := ReadinessStepErrors(form, parsers);
    }
    ok := |errors| == 0;
    if !ok {
      var f :| f in errors;
    }
  }

  /** The checks of the first step. */
  method AcademicStepErrors(form: FormData, parsers: Parsers) returns (errors: map<FormField, string>)
    ensures ReportsStep(errors, 1, form, parsers)
  {
    errors := map[];
    errors := if form.education_level == "" then errors[EducationLevel := MissingMessage(EducationLevel)] else errors;
    errors := if form.degree_major == "" then errors[DegreeMajor := MissingMessage(DegreeMajor)] else errors;
    errors := if form.graduation_year == "" then errors[GraduationYear := MissingMessage(GraduationYear)] else errors;
    errors := if form.gpa_percentage == "" then errors[GpaPercentage := MissingMessage(GpaPercentage)] else errors;
  }

  /** The checks of the second step. */
  method GoalsStepErrors(form: FormData, parsers: Parsers) returns (errors: map<FormField, string>)
    ensures ReportsStep(errors, 2, form, parsers)
  {
    errors := map[];
    errors := if form.intended_degree == "" then errors[IntendedDegree := MissingMessage(IntendedDegree)] else errors;
    errors := if form.field_of_study == "" then errors[FieldOfStudy := MissingMessage(FieldOfStudy)] else errors;
    errors := if form.target_intake_year == "" then errors[TargetIntakeYear := MissingMessage(TargetIntakeYear)] else errors;
    errors := if |form.preferred_countries| == 0 then errors[PreferredCountries := MissingMessage(PreferredCountries)] else errors;
  }

  /** The checks of the third step; the order message overwrites nothing but the
      maximum's own entry. */
  method BudgetStepErrors(form: FormData, parsers: Parsers) returns (errors: map<FormField, string>)
    ensures ReportsStep(errors, 3, form, parsers)
  {
    errors := map[];
    errors := if form.budget_min == "" then errors[BudgetMin := MissingMessage(BudgetMin)] else errors;
    errors := if form.budget_max == "" then errors[BudgetMax := MissingMessage(BudgetMax)] else errors;
    errors := if StepBudgetInverted(form, parsers) then errors[BudgetMax := BUDGET_ORDER_MESSAGE] else errors;
    errors := if form.funding_plan == "" then errors[FundingPlan := MissingMessage(FundingPlan)] else errors;
  }

  /** The checks of the fourth step. */
  method ReadinessStepErrors(form: FormData, parsers: Parsers) returns (errors: map<FormField, string>)
    ensures ReportsStep(errors, 4, form, parsers)
  {
    errors := map[];
    errors := if form.ielts_toefl_status == "" then errors[IeltsToeflStatus := MissingMessage(IeltsToeflStatus)] else errors;
    errors := if form.gre_gmat_status == "" then errors[GreGmatStatus := MissingMessage(GreGmatStatus)] else errors;
    errors := if form.sop_status == "" then errors[SopStatus := MissingMessage(SopStatus)] else errors;
  }

  /** The first step checks only that its four inputs are filled: a blank major and
      an out-of-range GPA pass, unlike in the profile editor. */
  lemma FirstStepChecksPresenceOnly(form: FormData, parsers: Parsers, f: FormField)
    ensures StepError(1, form, f, parsers).Some? <==>
      f in {EducationLevel, DegreeMajor, GraduationYear, GpaPercentage} && Get(form, f) == Text("")
    ensures form.degree_major == " " ==> (StepError(1, form, DegreeMajor, parsers).None?
      && ValidateField(form, DegreeMajor, parsers).Some?)
  {
    if form.degree_major == " " {
      DegreeMajorRejectsBlank(form, parsers);
    }
  }

  /** The second step needs a degree, a field, an intake year and at least one
      country; the intake term is optional. */
  lemma SecondStepRequirements(form: FormData, parsers: Parsers)
    ensures StepError(2, form, TargetIntakeTerm, parsers).None?
    ensures StepError(2, form, PreferredCountries, parsers).Some? <==> form.preferred_countries == []
    ensures forall f :: f in {IntendedDegree, FieldOfStudy, TargetIntakeYear} ==>
      (StepError(2, form, f, parsers).Some? <==> Get(form, f) == Text(""))
  {
  }

  /** The third step reports the order message on the maximum exactly when both bounds
      are filled and the minimum parses above the maximum. */
  lemma ThirdStepBudgetOrder(form: FormData, parsers: Parsers)
    ensures StepError(3, form, BudgetMax, parsers) == Some(BUDGET_ORDER_MESSAGE) <==> StepBudgetInverted(form, parsers)
    ensures StepError(3, form, BudgetMax, parsers) == Some(MissingMessage(BudgetMax)) <==> form.budget_max == ""
  {
  }

  /** The fourth step needs the three statuses; scores are optional. */
  lemma FourthStepRequirements(form: FormData, parsers: Parsers, f: FormField)
    ensures StepError(4, form, f, parsers).Some? <==>
      f in {IeltsToeflStatus, GreGmatStatus, SopStatus} && Get(form, f) == Text("")
  {
  }

  /** A step outside 1..4 always passes. */
  lemma OtherStepsPass(step: int, form: FormData, parsers: Parsers, f: FormField)
    requires step !in {1, 2, 3, 4}
    ensures StepError(step, form, f, parsers).None?
  {
  }

  /** The page's error map, shown under the inputs. */
  class OnboardingPageState {
    var errors: map<FormField, string>

    constructor ()
      ensures errors == map[]
    {
      errors := map[];
    }

    /** `handleNext`: a failing step shows its errors and goes no further; a passing one
        asks the hook for the next step and then clears the errors. */
    method HandleNext(hook: OnboardingHookState, hasUser: bool, updateOk: bool, parsers: Parsers)
      modifies this, hook`saving, hook`sentUpdates, hook`currentStep
      ensures var step, form := old(hook.currentStep), old(hook.formData);
        (exists f :: StepError(step, form, f, parsers).Some?) ==>
          (hook.currentStep == step && hook.sentUpdates == old(hook.sentUpdates) && hook.saving == old(hook.saving)
           && ReportsStep(errors, step, form, parsers))
      ensures var step, form := old(hook.currentStep), old(hook.formData);
        (forall f :: StepError(step, form, f, parsers).None?) ==>
          (errors == map[] && !hook.saving
           && hook.sentUpdates == old(hook.sentUpdates) + (if hasUser then [PayloadFor(form, step + 1, false, parsers)] else [])
           && hook.currentStep == if hasUser && updateOk && step < TOTAL_STEPS then step + 1 else step)
    {
      var ok, newErrors := ValidateStep(hook.currentStep, hook.formData, parsers);
      errors := newErrors;
      if !ok {
        return;
      }
      hook.NextStep(hasUser, updateOk, parsers);
      errors := map[];
    }

    /** `handleComplete`: a failing step stops there; otherwise the completing save is
        sent and the page moves on to the dashboard iff it succeeded. */
    method HandleComplete(hook: OnboardingHookState, hasUser: bool, updateOk: bool, parsers: Parsers) returns (toDashboard: bool)
      modifies this, hook`saving, hook`sentUpdates
      ensures var step, form := old(hook.currentStep), old(hook.formData);
        (exists f :: StepError(step, form, f, parsers).Some?) ==>
          (!toDashboard && hook.sentUpdates == old(hook.sentUpdates) && hook.saving == old(hook.saving)
           && ReportsStep(errors, step, form, parsers))
      ensures var step, form := old(hook.currentStep), old(hook.formData);
        (forall f :: StepError(step, form, f, parsers).None?) ==>
          (errors == map[] && !hook.saving
           && hook.sentUpdates == old(hook.sentUpdates) + (if hasUser then [PayloadFor(form, TOTAL_STEPS, true, parsers)] else [])
           && (toDashboard <==> hasUser && updateOk))
    {
      var ok, newErrors := ValidateStep(hook.currentStep, hook.formData, parsers);
      errors := newErrors;
      if !ok {
        return false;
      }
      toDashboard := hook.CompleteOnboarding(hasUser, updateOk, parsers);
    }
  }
}
