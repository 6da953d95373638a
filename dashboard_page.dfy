/** The dashboard page: the journey tracker, the readiness colour, the to-do card, the
    greeting name and the redirect to onboarding. */
module DashboardPage {
  import opened JsValues
  import opened Domain
  import opened Seqs
  import opened DashboardStats
  import opened ProfileStrength
  import opened ApplicationTasks

  /** `STAGES`: the journey in the order the tracker shows it. */
  const STAGES: seq<Stage> := [Onboarding, Discover, LockChoices, Applications]

  /** `STAGES.indexOf(stage)`: the first position holding the stage. */
  function StageIndex(s: Stage): (i: nat)
    ensures i < |STAGES| && STAGES[i] == s
    ensures forall j :: 0 <= j < i ==> STAGES[j] != s
  {
    match s
    case Onboarding => 0
    case Discover => 1
    case LockChoices => 2
    case Applications => 3
  }

  /** Every stage appears in `STAGES` exactly once. */
  lemma StagesListedOnce(i: int, j: int)
    requires 0 <= i < |STAGES| && 0 <= j < |STAGES|
    ensures STAGES[i] == STAGES[j] ==> i == j
    ensures StageIndex(STAGES[i]) == i
  {
  }

  datatype StageStatus = Completed | Current | Locked

  /** `getStageStatus`: by position relative to the current stage. */
  function GetStageStatus(current: Stage, index: int): StageStatus {
    if index < StageIndex(current) then Completed
    else if index == StageIndex(current) then Current
    else Locked
  }

  /** The tracker marks exactly the current stage as current, the stages before it as
      completed and the stages after it as locked. */
  lemma TrackerMarksCurrentOnly(current: Stage, i: int)
    requires 0 <= i < |STAGES|
    ensures GetStageStatus(current, i) == Current <==> STAGES[i] == current
    ensures GetStageStatus(current, i) == Completed <==> i < StageIndex(current)
    ensures GetStageStatus(current, i) == Locked <==> i > StageIndex(current)
  {
    StagesListedOnce(i, StageIndex(current));
  }

  /** Along the tracker the statuses never go back: a completed stage is never after
      a current or locked one, and a locked one never before. */
  lemma TrackerIsOrdered(current: Stage, i: int, j: int)
    requires 0 <= i <= j < |STAGES|
    ensures GetStageStatus(current, j) == Completed ==> GetStageStatus(current, i) == Completed
    ensures GetStageStatus(current, i) == Locked ==> GetStageStatus(current, j) == Locked
  {
  }

  /** Whenever the dashboard is shown the profile is complete, so the onboarding stage
      is marked completed and some later stage is current. */
  lemma ShownDashboardPassedOnboarding(p: Profile, locked: bool, hasTasks: Option<bool>)
    requires p.onboarding_completed
    ensures GetStageStatus(CalculateCurrentStage(Some(p), locked, hasTasks), 0) == Completed
    ensures GetStageStatus(CalculateCurrentStage(Some(p), locked, hasTasks), 1) == (if locked then Completed else Current)
  {
  }

  /** The colour the readiness score is shown in. */
  datatype ReadinessColor = Green | Yellow | Red

  /** The score's text, badge and icon colour: green from 70, yellow from 50, else red. */
  function ReadinessColorOf(score: int): ReadinessColor {
    if score >= 70 then Green else if score >= 50 then Yellow else Red
  }

  function ColorRank(c: ReadinessColor): int {
    match c
    case Green => 2
    case Yellow => 1
    case Red => 0
  }

  /** A higher score is never shown in a worse colour. */
  lemma ReadinessColorMonotone(x: int, y: int)
    requires x <= y
    ensures ColorRank(ReadinessColorOf(x)) <= ColorRank(ReadinessColorOf(y))
  {
  }

  /** A profile with every band at its highest is shown green, one with every band at
      its lowest red, like a missing profile. */
  lemma ReadinessColorOfProfiles()
    ensures ReadinessColorOf(Readiness(Strong, Ready, Good)) == Green
    ensures ReadinessColorOf(Readiness(Weak, ExamsMissing, Risky)) == Red
    ensures ReadinessColorOf(DetailedOf(None).overallReadinessScore) == Red
  {
  }

  /** `Math.min(100, score)`: the progress bar value. */
  function ProgressValue(score: int): (v: int)
    ensures v <= 100
    ensures v == score || v == 100
  {
    if score < 100 then score else 100
  }

  /** The cap never binds: every readiness score is below 100, so the bar shows the
      score itself. */
  lemma ProgressShowsScore(profile: Option<Profile>)
    ensures ProgressValue(DetailedOf(profile).overallReadinessScore) == DetailedOf(profile).overallReadinessScore
  {
    var d := DetailedOf(profile);
    if profile.Some? {
      ReadinessRange(d.academics, d.exams, d.budgetFit);
    }
  }

  /** The AI to-do card is shown once onboarding is complete, a university is locked
      and the user has tasks. */
  predicate ShowTodoCard(profile: Option<Profile>, stats: Stats, tasks: seq<ApplicationTask>) {
    profile.Some? && profile.value.onboarding_completed && stats.hasLockedUniversities && |tasks| > 0
  }

  /** The tasks the card lists: the first five, in list order. */
  function TodoItems(tasks: seq<ApplicationTask>): (r: seq<ApplicationTask>)
    ensures |r| <= 5 && |r| <= |tasks|
    ensures forall i :: 0 <= i < |r| ==> r[i] == tasks[i]
    ensures |tasks| >= 5 ==> |r| == 5
  {
    Take(tasks, 5)
  }

  /** The card only appears past the discover stage: with a university locked the
      computed stage is lock_choices or applications. */
  lemma TodoCardImpliesLockedStage(profile: Option<Profile>, stats: Stats, tasks: seq<ApplicationTask>, hasTasks: Option<bool>)
    requires ShowTodoCard(profile, stats, tasks)
    ensures CalculateCurrentStage(profile, stats.hasLockedUniversities, hasTasks) in {LockChoices, Applications}
  {
  }

  /** `email.split("@")[0]`: the text before the first "@", all of it when there is
      none. */
  function BeforeAt(s: string): (r: string)
    ensures |r| <= |s| && r == s[..|r|]
    ensures '@' !in r
    ensures |r| < |s| ==> s[|r|] == '@'
    decreases |s|
  {
    if s == [] || s[0] == '@' then [] else [s[0]] + BeforeAt(s[1..])
  }

  /** The local part of an address comes back whatever follows the "@". */
  lemma {:induction false} BeforeAtOfAddress(local: string, domain: string)
    requires '@' !in local
    ensures BeforeAt(local + "@" + domain) == local
    decreases |local|
  {
    var s := local + "@" + domain;
    if local == [] {
      assert s[0] == '@';
    } else {
      assert s[0] == local[0];
      assert s[1..] == local[1..] + "@" + domain;
      BeforeAtOfAddress(local[1..], domain);
    }
  }

  /** `userName`: the full name, else the email's local part, else "Student". */
  function UserName(fullName: Option<string>, email: Option<string>): (r: string)
    ensures r != ""
    ensures TruthyText(fullName) ==> r == fullName.value
    ensures !TruthyText(fullName) ==> '@' !in r
    ensures !TruthyText(fullName) && email.None? ==> r == "Student"
  {
    if TruthyText(fullName) then fullName.value
    else if email.Some? && BeforeAt(email.value) != "" then BeforeAt(email.value)
    else "Student"
  }

  /** Without a full name the greeting uses the address's local part, and falls back to
      "Student" when that part is empty. */
  lemma GreetingFromAddress(local: string, domain: string)
    requires '@' !in local
    ensures UserName(None, Some(local + "@" + domain)) == if local == "" then "Student" else local
    ensures UserName(Some(""), Some(local + "@" + domain)) == UserName(None, Some(local + "@" + domain))
  {
    BeforeAtOfAddress(local, domain);
  }

  /** The onboarding guard: a signed-in user without a completed profile must finish
      onboarding first. */
  predicate MustCompleteOnboarding(hasUser: bool, profile: Option<Profile>) {
    hasUser && (profile.None? || !profile.value.onboarding_completed)
  }

  /** The redirect effect fires once loading has finished and the guard holds. */
  predicate RedirectsToOnboarding(loading: bool, profileLoading: bool, hasUser: bool, profile: Option<Profile>) {
    !loading && !profileLoading && MustCompleteOnboarding(hasUser, profile)
  }

  /** The dashboard itself is rendered only when nothing is loading and the guard does
      not hold; otherwise a spinner is. */
  predicate RendersDashboard(loading: bool, profileLoading: bool, hasUser: bool, profile: Option<Profile>) {
    !loading && !profileLoading && !MustCompleteOnboarding(hasUser, profile)
  }

  /** A signed-in user sees the dashboard only with a completed profile, and then the
      computed stage is past onboarding; while it is not shown after loading, the page
      is on its way to onboarding. */
  lemma DashboardNeedsCompletedProfile(loading: bool, profileLoading: bool, profile: Option<Profile>,
                                       locked: bool, hasTasks: Option<bool>)
    ensures RendersDashboard(loading, profileLoading, true, profile) ==>
      profile.Some? && profile.value.onboarding_completed
      && CalculateCurrentStage(profile, locked, hasTasks) != Onboarding
    ensures !loading && !profileLoading ==>
      (RendersDashboard(loading, profileLoading, true, profile) <==> !RedirectsToOnboarding(loading, profileLoading, true, profile))
    ensures RedirectsToOnboarding(loading, profileLoading, true, profile) <==>
      !loading && !profileLoading && CalculateCurrentStage(profile, locked, hasTasks) == Onboarding
  {
  }
}
