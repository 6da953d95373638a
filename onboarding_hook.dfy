/** The onboarding wizard's state: the current step, the form, and the progress saves
    whose payload grows with the step. */
module OnboardingHook {
  import opened JsValues
  import opened Domain
  import opened DashboardStats
  import opened ProfileForm

  const TOTAL_STEPS := 4

  /** One progress update: the meta columns always, and each group of data columns
      only once the wizard has reached its step (an absent group is not written). */
  datatype Payload = Payload(
    onboarding_step: int,
    onboarding_completed: bool,
    current_stage: string,
    academic: Option<Academic>,
    goals: Option<Goals>,
    budget: Option<Budget>,
    exams: Option<Exams>)

  /** `saveProgress`'s `updateData` for a step. */
  function PayloadFor(form: FormData, step: int, completed: bool, parsers: Parsers): (u: Payload)
    ensures u.onboarding_step == step && u.onboarding_completed == completed
    ensures u.current_stage == if completed then StageName(Discover) else StageName(Onboarding)
    ensures u.academic.Some? <==> step >= 1
    ensures u.goals.Some? <==> step >= 2
    ensures u.budget.Some? <==> step >= 3
    ensures u.exams.Some? <==> step >= 4
  {
    Payload(step, completed, if completed then "discover" else "onboarding",
      if step >= 1 then Some(AcademicFrom(form, parsers)) else None,
      if step >= 2 then Some(GoalsFrom(form, parsers)) else None,
      if step >= 3 then Some(BudgetFrom(form, parsers)) else None,
      if step >= 4 then Some(ExamsFrom(form, parsers)) else None)
  }

  /** The stored row after the update: written columns replaced, the others kept. */
  function ApplyPayload(p: Profile, u: Payload): Profile {
    p.(onboarding_step := u.onboarding_step, onboarding_completed := u.onboarding_completed,
       current_stage := u.current_stage,
       academic := GetOr(u.academic, p.academic), goals := GetOr(u.goals, p.goals),
       budget := GetOr(u.budget, p.budget), exams := GetOr(u.exams, p.exams))
  }

  /** A save before the last step leaves the later groups as they were stored; a save
      at step 4 or later writes all the data columns exactly as the editor's save does. */
  lemma PayloadIsCumulative(p: Profile, form: FormData, step: int, completed: bool, parsers: Parsers)
    ensures var q := ApplyPayload(p, PayloadFor(form, step, completed, parsers));
      (step < 4 ==> q.exams == p.exams) && (step < 3 ==> q.budget == p.budget)
      && (step < 2 ==> q.goals == p.goals) && (step < 1 ==> DataOf(q) == DataOf(p))
      && (step >= 4 ==> DataOf(q) == DataFrom(form, parsers))
      && (step >= 1 ==> q.academic == AcademicFrom(form, parsers))
  {
  }

  /** After the completing save the row is marked complete with stage discover, so the
      stage computer leaves onboarding and, with nothing locked, agrees with the row. */
  lemma CompletionLeavesOnboarding(p: Profile, form: FormData, parsers: Parsers, hasTasks: Option<bool>)
    ensures var q := ApplyPayload(p, PayloadFor(form, TOTAL_STEPS, true, parsers));
      q.onboarding_completed && q.onboarding_step == 4
      && CalculateCurrentStage(Some(q), false, hasTasks) == Discover
      && !NeedsSync(Some(q), CalculateCurrentStage(Some(q), false, hasTasks))
      && DataOf(q) == DataFrom(form, parsers)
  {
  }

  /** A save that does not complete keeps the computed stage at onboarding. */
  lemma ProgressKeepsOnboarding(p: Profile, form: FormData, step: int, parsers: Parsers, locked: bool, hasTasks: Option<bool>)
    ensures var q := ApplyPayload(p, PayloadFor(form, step, false, parsers));
      CalculateCurrentStage(Some(q), locked, hasTasks) == Onboarding
      && !NeedsSync(Some(q), Onboarding)
  {
  }

  /** `data.onboarding_step || 1`. */
  function InitialStep(p: Profile): (s: int)
    ensures s == (if p.onboarding_step == 0 then 1 else p.onboarding_step)
    ensures 1 <= p.onboarding_step <= 4 ==> s == p.onboarding_step
  {
    if p.onboarding_step != 0 then p.onboarding_step else 1
  }

  class OnboardingHookState {
    var currentStep: int
    var formData: FormData
    var loading: bool
    var saving: bool
    var profile: Option<Profile>
    /** The updates sent to the profile row, in order. */
    var sentUpdates: seq<Payload>

    constructor ()
      ensures currentStep == 1 && formData == EmptyForm && loading && !saving && profile == None && sentUpdates == []
    {
      currentStep := 1;
      formData := EmptyForm;
      loading := true;
      saving := false;
      profile := None;
      sentUpdates := [];
    }

    /** `fetchProfile`: a stored row sets the step and fills the form; anything else
        leaves both. Loading ends on every path, the early return without a user
        included, since it leaves through the `finally` block. */
    method FetchProfile(hasUser: bool, queryOk: bool, row: Option<Profile>, printers: Printers)
      modifies this`currentStep, this`formData, this`loading, this`profile
      ensures hasUser && queryOk && row.Some? ==>
        profile == row && currentStep == InitialStep(row.value) && formData == FormOf(row.value, printers)
      ensures !(hasUser && queryOk && row.Some?) ==>
        profile == old(profile) && currentStep == old(currentStep) && formData == old(formData)
      ensures !loading
    {
      if !hasUser {
        loading := false;
        return;
      }
      if queryOk && row.Some? {
        profile := row;
        currentStep := InitialStep(row.value);
        formData := FormOf(row.value, printers);
      }
      loading := false;
    }

    method UpdateField(f: FormField, v: FieldInput)
      requires Fits(f, v)
      modifies this`formData
      ensures formData == Set(old(formData), f, v)
    {
      formData := Set(formData, f, v);
    }

    /** `saveProgress`: without a user nothing is sent; otherwise the step's payload is
        sent, and the result is whether the update succeeded. Saving ends either way. */
    method SaveProgress(step: int, completed: bool, hasUser: bool, updateOk: bool, parsers: Parsers) returns (ok: bool)
      modifies this`saving, this`sentUpdates
      ensures !saving
      ensures sentUpdates == old(sentUpdates) + (if hasUser then [PayloadFor(formData, step, completed, parsers)] else [])
      ensures ok <==> hasUser && updateOk
    {
      saving := true;
      if !hasUser {
        saving := false;
        return false;
      }
      var updateData := PayloadFor(formData, step, completed, parsers);
      sentUpdates := sentUpdates + [updateData];
      ok := updateOk;
      saving := false;
    }

    /** `nextStep`: save with the next step number, and advance only when that save
        succeeded and the wizard is not on its last step. */
    method NextStep(hasUser: bool, updateOk: bool, parsers: Parsers)
      modifies this`saving, this`sentUpdates, this`currentStep
      ensures sentUpdates == old(sentUpdates) + (if hasUser then [PayloadFor(formData, old(currentStep) + 1, false, parsers)] else [])
      ensures currentStep == if hasUser && updateOk && old(currentStep) < TOTAL_STEPS then old(currentStep) + 1 else old(currentStep)
      ensures 1 <= old(currentStep) <= TOTAL_STEPS ==> 1 <= currentStep <= TOTAL_STEPS
      ensures !saving
    {
      var saved := SaveProgress(currentStep + 1, false, hasUser, updateOk, parsers);
      if saved && currentStep < TOTAL_STEPS {
        currentStep := currentStep + 1;
      }
    }

    /** `prevStep`: go back one step, never below the first. */
    method PrevStep()
      modifies this`currentStep
      ensures currentStep == if old(currentStep) > 1 then old(currentStep) - 1 else old(currentStep)
      ensures 1 <= old(currentStep) <= TOTAL_STEPS ==> 1 <= currentStep <= TOTAL_STEPS
    {
      if currentStep > 1 {
        currentStep := currentStep - 1;
      }
    }

    /** `completeOnboarding`: the last step's save, marked complete. */
    method CompleteOnboarding(hasUser: bool, updateOk: bool, parsers: Parsers) returns (ok: bool)
      modifies this`saving, this`sentUpdates
      ensures sentUpdates == old(sentUpdates) + (if hasUser then [PayloadFor(formData, TOTAL_STEPS, true, parsers)] else [])
      ensures ok <==> hasUser && updateOk
      ensures !saving
    {
      ok := SaveProgress(TOTAL_STEPS, true, hasUser, updateOk, parsers);
    }
  }
}
