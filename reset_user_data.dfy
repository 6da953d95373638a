/** Resetting a user's data: the application tasks and universities are deleted and
    the profile row is cleared back to the start of onboarding. */
module ResetUserData {
  import opened JsValues
  import opened Domain
  import opened ProfileStrength
  import opened DashboardStats
  import opened ProfileForm
  import opened OnboardingHook

  /** The profile row after the reset update: every data column null, onboarding
      incomplete at step 1, stage onboarding. */
  function ResetProfile(p: Profile): (q: Profile)
    ensures q.academic == NoAcademic && q.goals == NoGoals && q.budget == NoBudget && q.exams == NoExams
    ensures !q.onboarding_completed && q.onboarding_step == 1 && q.current_stage == StageName(Onboarding)
  {
    p.(academic := NoAcademic, goals := NoGoals, budget := NoBudget, exams := NoExams,
       onboarding_completed := false, onboarding_step := 1, current_stage := "onboarding")
  }

  /** A reset row keeps nothing of the row it replaced: every row resets to the same
      one, and resetting again changes nothing. */
  lemma ResetForgetsData(p: Profile, p': Profile)
    ensures ResetProfile(p) == ResetProfile(p')
    ensures ResetProfile(ResetProfile(p)) == ResetProfile(p)
  {
  }

  /** With no field complete, every field is missing and none is counted. */
  lemma {:induction false} NothingDoneAllMissing(p: Profile, fields: seq<FieldKey>)
    requires forall k :: !Done(p, k)
    ensures MissingKeys(p, fields) == fields
    ensures CompletedOf(p, fields) == 0
    decreases |fields|
  {
    if fields != [] {
      var init := fields[..|fields| - 1];
      NothingDoneAllMissing(p, init);
      assert init + [fields[|fields| - 1]] == fields;
    }
  }

  /** A reset row scores on the checklist exactly as no profile at all does: 0% with
      all 15 labels missing. */
  lemma ResetProfileStrength(p: Profile)
    ensures StrengthOf(Some(ResetProfile(p))) == StrengthOf(None)
  {
    var q := ResetProfile(p);
    assert forall k :: !Done(q, k) by {
      forall k ensures !Done(q, k) {
        match k
        case _ => assert ValueOf(q, k) == Missing;
      }
    }
    NothingDoneAllMissing(q, PROFILE_FIELDS);
  }

  /** The detailed assessment of a reset row is not that of no profile: every band is
      at its lowest, which still gives a readiness score of 28 rather than 0. */
  lemma ResetProfileDetailed(p: Profile)
    ensures DetailedOf(Some(ResetProfile(p))) == Detailed(Weak, ExamsMissing, Risky, 28)
    ensures DetailedOf(None).overallReadinessScore == 0
  {
  }

  /** After a reset the user is back in onboarding whatever else is stored, the stored
      stage needs no sync, the wizard restarts at step 1 and its form is blank. */
  lemma ResetRestartsOnboarding(p: Profile, locked: bool, hasTasks: Option<bool>, printers: Printers)
    ensures CalculateCurrentStage(Some(ResetProfile(p)), locked, hasTasks) == Onboarding
    ensures !NeedsSync(Some(ResetProfile(p)), Onboarding)
    ensures InitialStep(ResetProfile(p)) == 1
    ensures FormOf(ResetProfile(p), printers) == EmptyForm
  {
  }

  /** The toast the reset ends with. */
  datatype ResetNotice = NotSignedIn | TasksNotDeleted | UniversitiesNotDeleted | ProfileNotReset | DataReset

  /** The rows one user owns. A profile update that matches no row writes nothing. */
  class UserRows {
    var tasks: seq<ApplicationTask>
    var universities: seq<University>
    var profile: Option<Profile>

    constructor (tasks0: seq<ApplicationTask>, universities0: seq<University>, profile0: Option<Profile>)
      ensures tasks == tasks0 && universities == universities0 && profile == profile0
    {
      tasks := tasks0;
      universities := universities0;
      profile := profile0;
    }

    method DeleteTasks()
      modifies this`tasks
      ensures tasks == []
    {
      tasks := [];
    }

    method DeleteUniversities()
      modifies this`universities
      ensures universities == []
    {
      universities := [];
    }

    method ResetProfileRow()
      modifies this`profile
      ensures profile == if old(profile).Some? then Some(ResetProfile(old(profile).value)) else None
    {
      if profile.Some? {
        profile := Some(ResetProfile(profile.value));
      }
    }
  }

  class ResetHook {
    var isResetting: bool

    constructor ()
      ensures !isResetting
    {
      isResetting := false;
    }

    /** `resetUserData`: tasks, then universities, then the profile, stopping at the
        first failure. Nothing is rolled back, so a later failure leaves the earlier
        deletions in place. `isResetting` is cleared on every path. */
    method Reset(rows: UserRows, hasUser: bool, tasksOk: bool, universitiesOk: bool, profileOk: bool)
      returns (ok: bool, notice: ResetNotice)
      modifies this`isResetting, rows
      ensures !isResetting
      ensures ok <==> hasUser && tasksOk && universitiesOk && profileOk
      ensures ok <==> notice == DataReset
      ensures notice == NotSignedIn <==> !hasUser
      ensures notice == TasksNotDeleted <==> hasUser && !tasksOk
      ensures notice == UniversitiesNotDeleted <==> hasUser && tasksOk && !universitiesOk
      ensures notice == ProfileNotReset <==> hasUser && tasksOk && universitiesOk && !profileOk
      ensures rows.tasks == if hasUser && tasksOk then [] else old(rows.tasks)
      ensures rows.universities == if hasUser && tasksOk && universitiesOk then [] else old(rows.universities)
      ensures rows.profile == if ok && old(rows.profile).Some? then Some(ResetProfile(old(rows.profile).value))
                              else old(rows.profile)
    {
      isResetting := true;
      if !hasUser {
        isResetting := false;
        return false, NotSignedIn;
      }
      if !tasksOk {
        isResetting := false;
        return false, TasksNotDeleted;
      }
      rows.DeleteTasks();
      if !universitiesOk {
        isResetting := false;
        return false, UniversitiesNotDeleted;
      }
      rows.DeleteUniversities();
      if !profileOk {
        isResetting := false;
        return false, ProfileNotReset;
      }
      rows.ResetProfileRow();
      isResetting := false;
      return true, DataReset;
    }
  }
}
