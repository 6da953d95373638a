# Study-abroad planner: a verified model of its business rules

This project models, in Dafny, the rules a study-abroad planning app applies to a
student's profile, shortlist and application tasks. It also proves what those rules
promise. The app is a React front end over a hosted Postgres store, with two
serverless handlers that call an LLM gateway. The model covers these parts:

- **Profile scoring.**
  - The 15-field completeness checklist, with its percentage and ordered list of
    missing labels.
  - The detailed readiness bands (academics, exams, budget fit) and the weighted
    readiness score.
  - The counsellor sidebar's separate 100-point score.
  - The profile-strength card's display choices.
- **The journey stage.** The computed stage, the conditional write-back when the
  stored stage differs, the forced syncs on the first lock and the last unlock, and
  the dashboard's stage tracker.
- **Collection updates.**
  - The shortlist and recommendations lists: add, remove, lock, unlock, generate.
  - The task list: toggle, delete, grouping by category, counts and progress.
  - The set of open task categories.
  - The preferred-country toggle.
- **Filtering and ordering.** The university filter, "preferred countries first",
  and the application timeline (dated tasks, sorted, first eight).
- **Forms.**
  - The onboarding wizard: step validators, the step counter, the cumulative save
    payload, completion.
  - The profile editor: field and form validation, dirty tracking, save and discard,
    the load and save mappings.
  - The reset of a user's data.
- **The two handlers.**
  - The task generator's gates: authorization, locked universities, existing tasks,
    regenerate, delete-then-insert. Also its status mapping and row mapping.
  - The recommendations handler: fence-stripping cleanup, status mapping, and the
    empty-content and filter-line rules.

Each source file of the core is one Dafny module. Three shared modules support them:

- `JsValues`: an `Option` type, JavaScript truthiness, and `Math.round` on exact
  rationals.
- `Seqs`: filter and take, with their lemmas.
- `Text`: `trim`, `startsWith`, `endsWith` and the `<` order on strings.

`Domain` holds the records and enumerations of the app's type declarations.

Where the source changes state step by step, the model is imperative Dafny:

- hooks and pages become classes whose fields are the React state;
- each method's `ensures` states the whole new state as a function of the old one;
- the properties are lemmas about those functions.

Pure expressions in the source are functions, each paired with lemmas.

Calls to the database, to authentication and to the LLM gateway are parameters of
the model. Each such parameter is an outcome that the caller chooses: success with
data, or failure. The same holds for the clock (the current year) and for
`JSON.parse`, `parseInt` and `parseFloat`, which are partial functions returning an
`Option`.

## Model

| member | source | states |
|---|---|---|
| JsValues.NullIfEmpty | src/hooks/useOnboarding.ts:108 | an empty selection becomes null and any other value is kept as it is |
| JsValues.EmptyIfNull | src/hooks/useOnboarding.ts:59 | a null field shows as the empty string and a present one as its value |
| JsValues.RoundDiv | src/hooks/useProfile.ts:52 | `Math.round(a / b)`: the nearest integer to a/b, halves rounded up |
| JsValues.RoundDivOfMultiple | src/hooks/useProfile.ts:52 | rounding an exact quotient gives the quotient |
| JsValues.RoundDivMonotone | src/hooks/useProfile.ts:52 | a larger numerator never rounds to a smaller result |
| JsValues.RoundDivBounds | src/hooks/useProfile.ts:52 | a share between 0 and 100 times the denominator rounds into 0..100 |
| Seqs.Filter | src/hooks/useDashboardStats.ts:109-110 | `Array.prototype.filter`: the result keeps exactly the elements that pass, and no more of them than the list had |
| Seqs.Take | src/pages/Dashboard.tsx:295 | `slice(0, n)`: the first n elements, or all of them when there are fewer |
| Seqs.FilterIsSubsequence | src/hooks/useDashboardStats.ts:109-110 | a filter keeps the elements in their list order |
| Seqs.FilterPartition | src/hooks/useDashboardStats.ts:109-110 | the elements that pass and those that fail make up the list, as a multiset and in number |
| Seqs.FilterKeepsAllIff | src/hooks/useDashboardStats.ts:109-110 | a filter keeps every element exactly when every element passes |
| Seqs.FilterIdempotent | src/hooks/useDashboardStats.ts:109-110 | filtering twice by the same test is filtering once |
| Text.TrimSpec | src/hooks/useProfile.ts:43 | `trim()` returns the slice of the string between its leading and trailing white space, with none left at either end |
| Text.TrimIdempotent | src/hooks/useProfile.ts:43 | trimming twice is trimming once |
| Text.TrimEmptyIffAllSpace | src/hooks/useProfile.ts:43 | a string trims to "" exactly when all of it is white space |
| Text.StrLeTotal | src/pages/Applications.tsx:231-234 | any two due dates are ordered one way or the other by the comparison the sort uses |
| Text.StrLeTransitive | src/pages/Applications.tsx:231-234 | the comparison the sort uses is transitive |
| Text.StrLeAntisymmetric | src/pages/Applications.tsx:231-234 | two dates each no later than the other are equal |
| ProfileStrength.CompletionRule | src/hooks/useProfile.ts:40-43 | a checklist field counts as completed exactly when it is present and, for text, holds a character other than white space, and, for the country list, is not empty |
| ProfileStrength.Labels | src/hooks/useProfile.ts:34 | the label list has one label per checklist field |
| ProfileStrength.CalculateProfileStrength | src/hooks/useProfile.ts:32-55 | the loop over the fifteen checklist fields returns exactly the strength the checklist defines: the completed count, the labels of the missing fields in checklist order, and the rounded percentage |
| ProfileStrength.CompletedPlusMissing | src/hooks/useProfile.ts:37-50 | every field is either counted as completed or listed as missing, never both and never neither |
| ProfileStrength.MissingInChecklistOrder | src/hooks/useProfile.ts:40-49 | the missing fields appear in the order of the checklist |
| ProfileStrength.MissingExactly | src/hooks/useProfile.ts:40-49 | a field is listed as missing if and only if it is in the checklist and not completed |
| ProfileStrength.NullProfileStrength | src/hooks/useProfile.ts:33-35 | without a profile the strength is 0 of 15 with all fifteen labels missing, in checklist order |
| ProfileStrength.PercentageBounds | src/hooks/useProfile.ts:52 | the rounded percentage lies in 0..100 and is 100 exactly when all fifteen fields are completed |
| ProfileStrength.StrengthInvariants | src/hooks/useProfile.ts:32-54 | for any profile or none: 15 fields in total, completed plus missing is 15, the percentage is in 0..100, and it is 100 exactly when nothing is missing |
| ProfileStrength.PercentageNeverHalf | src/hooks/useProfile.ts:52 | completed/15 times 100 never falls exactly on a half, so the rounding direction never matters |
| ProfileStrength.DetailedOf | src/hooks/useProfile.ts:68-111 | without a profile the result is weak, missing, risky and a score of 0; with one the readiness score lies in 28..89 |
| ProfileStrength.ReadinessNeverHalf | src/hooks/useProfile.ts:104-109 | the weighted sum of the three band scores always ends in .25 or .75, so Math.round has no tie to break |
| ProfileStrength.ReadinessRange | src/hooks/useProfile.ts:104-109 | every combination of bands gives a readiness score between 28 and 89 |
| ProfileStrength.ReadinessMonotone | src/hooks/useProfile.ts:104-109 | improving any band never lowers the readiness score |
| ProfileStrength.GpaBetweenScalesIsWeak | src/hooks/useProfile.ts:78-81 | a GPA above 4 but below 70 is on neither scale the rule knows, and rates academics weak |
| ProfileStrength.ExamsBands | src/hooks/useProfile.ts:84-92 | exams are ready exactly when both tests are taken, and missing exactly when neither test is taken or planned |
| ProfileStrength.BudgetFitBands | src/hooks/useProfile.ts:94-102 | no budget is risky; with a max above the min the average of the two decides (good from 35000, tight from 20000); otherwise the min alone decides, with the same thresholds |
| DashboardStats.StageNamesAndLabelsDistinct | src/hooks/useDashboardStats.ts:7-14 | no two stages share a stored name or a label |
| DashboardStats.CalculateCurrentStage | src/hooks/useDashboardStats.ts:31-53 | onboarding exactly while there is no profile or it is not completed; discover exactly when it is completed and no university is locked; applications exactly when, in addition, tasks exist; lock_choices exactly when a university is locked and tasks are absent or false |
| DashboardStats.StatsOf | src/hooks/useDashboardStats.ts:108-117 | the total is the number of rows, neither count exceeds it, and there is a locked university exactly when some row is locked, exactly when the locked count is positive |
| DashboardStats.MirroredProfileNeedsNoSync | src/hooks/useDashboardStats.ts:135-139 | a sync is needed exactly when the loaded profile stores a stage name different from the computed one; never without a profile, and never once the stage was written back |
| DashboardStats.StageStore.constructor | src/hooks/useDashboardStats.ts:55-75 | the store starts with the given stored stages |
| DashboardStats.StageStore.SyncStageToDatabase | src/hooks/useDashboardStats.ts:55-75 | true exactly when there is a session and the update succeeds; then only that user's stored stage changes, to the stage's name; otherwise nothing changes |
| DashboardStats.DashboardStatsHook.constructor | src/hooks/useDashboardStats.ts:78-85 | the counters start at zero with nothing locked, no tasks, and loading |
| DashboardStats.DashboardStatsHook.FetchStats | src/hooks/useDashboardStats.ts:87-126 | loading always ends; without a session nothing else changes; with one the counters are recomputed from the returned rows (kept when none were returned) and tasks exist exactly when the task query returned a row |
| DashboardStats.DashboardStatsHook.AutoSync | src/hooks/useDashboardStats.ts:132-139 | a write of the computed stage is requested exactly when the profile stores a different stage, and nothing else changes |
| ProfileForm.Get | src/hooks/useOnboarding.ts:6-24 | the country field is the only one holding a list; every other field holds text |
| ProfileForm.SetChangesOnlyThatField | src/hooks/useOnboarding.ts:90-92 | an update sets exactly its own field: reading it back gives the new value and every other field is unchanged |
| ProfileForm.SetToCurrentValue | src/hooks/useOnboarding.ts:90-92 | writing back the value a field already holds changes nothing |
| ProfileForm.IntOf | src/hooks/useOnboarding.ts:110 | an empty input is stored as null, whatever the parser does |
| ProfileForm.RealOf | src/hooks/useOnboarding.ts:111 | an empty input is stored as null, whatever the parser does |
| ProfileForm.ListOrNull | src/hooks/useOnboarding.ts:118 | an empty country list is stored as null and any other list as it is |
| ProfileForm.IntText | src/hooks/useOnboarding.ts:61 | a null number loads as the empty input |
| ProfileForm.RealText | src/hooks/useOnboarding.ts:62 | a null number loads as the empty input |
| ProfileForm.WithData | src/hooks/useOnboarding.ts:100-131 | a saved row carries exactly the new data columns and keeps its onboarding and stage columns |
| ProfileForm.SaveThenLoad | src/hooks/useOnboarding.ts:58-76 | saving a form and loading its row back gives the same form, whenever every numeric input reads back as it prints |
| ProfileForm.LoadThenSave | src/hooks/useOnboarding.ts:58-76 | loading a row with no empty texts or lists and printable numbers into the form, then saving the form untouched, writes the same data back |
| ProfileForm.SavedDataHasNoEmptyText | src/hooks/useOnboarding.ts:107-131 | a save never stores an empty text or an empty country list: those become null |
| OnboardingHook.PayloadFor | src/hooks/useOnboarding.ts:100-131 | the update always carries the step, the completion flag and the stage (discover when completing, onboarding otherwise), and carries each group of data columns exactly when the step has reached that group |
| OnboardingHook.PayloadIsCumulative | src/hooks/useOnboarding.ts:106-131 | a save leaves the groups of the steps not yet reached as they were stored, always writes the academic group from step 1, and from step 4 on writes all the data columns exactly as the form says |
| OnboardingHook.CompletionLeavesOnboarding | src/hooks/useOnboarding.ts:167-170 | after the completing save the row is complete at step 4 with the form's data, the computed stage (nothing locked yet) is discover, and the stored stage already agrees with it |
| OnboardingHook.ProgressKeepsOnboarding | src/hooks/useOnboarding.ts:101-104 | a save that does not complete keeps the computed stage at onboarding, in agreement with the stored stage |
| OnboardingHook.InitialStep | src/hooks/useOnboarding.ts:55 | a stored step of 0 resumes at step 1; any other stored step, in particular every step 1..4, is resumed as it is |
| OnboardingHook.OnboardingHookState.constructor | src/hooks/useOnboarding.ts:28-32 | the wizard starts at step 1 with the empty form, loading, not saving, without a profile and with nothing sent |
| OnboardingHook.OnboardingHookState.FetchProfile | src/hooks/useOnboarding.ts:40-88 | a stored row becomes the profile, sets the step it resumes at and loads the form; without a user, on a query error or without a row all three stay; loading ends on every path |
| OnboardingHook.OnboardingHookState.UpdateField | src/hooks/useOnboarding.ts:90-92 | the form becomes the old form with exactly that field replaced |
| OnboardingHook.OnboardingHookState.SaveProgress | src/hooks/useOnboarding.ts:94-152 | without a user nothing is sent and the result is false; otherwise the step's payload is sent and the result is whether the update succeeded; saving ends either way |
| OnboardingHook.OnboardingHookState.NextStep | src/hooks/useOnboarding.ts:154-159 | the save is made for the next step number, and the wizard advances exactly when it succeeded and the current step is not the last, so the step stays within 1..4 |
| OnboardingHook.OnboardingHookState.PrevStep | src/hooks/useOnboarding.ts:161-165 | the step goes back by one but never below 1, so it stays within 1..4 |
| OnboardingHook.OnboardingHookState.CompleteOnboarding | src/hooks/useOnboarding.ts:167-170 | the step-4 payload marked complete is sent when there is a user, and the result is whether that save succeeded |
| OnboardingPage.CheckedAt | src/pages/Onboarding.tsx:57-84 | every input is checked by at most one of the four steps |
| OnboardingPage.ValidateStep | src/pages/Onboarding.tsx:54-88 | the error map holds exactly the inputs the current step finds wrong, each with its message, and the step passes exactly when the map is empty |
| OnboardingPage.AcademicStepErrors | src/pages/Onboarding.tsx:57-62 | the first step's checks produce exactly the first step's errors |
| OnboardingPage.GoalsStepErrors | src/pages/Onboarding.tsx:64-69 | the second step's checks produce exactly the second step's errors |
| OnboardingPage.BudgetStepErrors | src/pages/Onboarding.tsx:71-78 | the third step's checks produce exactly the third step's errors, the order message replacing the missing message on the maximum |
| OnboardingPage.ReadinessStepErrors | src/pages/Onboarding.tsx:80-84 | the fourth step's checks produce exactly the fourth step's errors |
| OnboardingPage.FirstStepChecksPresenceOnly | src/pages/Onboarding.tsx:57-62 | the first step errs on one of its four inputs exactly when it is empty; a degree of a single blank passes here although the profile editor rejects it |
| OnboardingPage.SecondStepRequirements | src/pages/Onboarding.tsx:64-69 | the intake term is never checked, the country list errs exactly when empty, and the degree, field and intake year err exactly when empty |
| OnboardingPage.ThirdStepBudgetOrder | src/pages/Onboarding.tsx:71-78 | the maximum budget carries the order message exactly when both bounds are filled and the minimum parses above the maximum, and the missing message exactly when it is empty |
| OnboardingPage.FourthStepRequirements | src/pages/Onboarding.tsx:80-84 | the fourth step errs on an input exactly when it is one of the three statuses and empty; the scores are never checked |
| OnboardingPage.OtherStepsPass | src/pages/Onboarding.tsx:54-88 | a step number outside 1..4 reports no error at all |
| OnboardingPage.OnboardingPageState.constructor | src/pages/Onboarding.tsx:41 | the page starts with no errors |
| OnboardingPage.OnboardingPageState.HandleNext | src/pages/Onboarding.tsx:90-94 | a step with errors shows exactly those errors with their messages, sends nothing, stays and leaves the saving flag alone; a step without errors sends the next step's payload, advances as the hook decides, ends saving and clears the errors |
| OnboardingPage.OnboardingPageState.HandleComplete | src/pages/Onboarding.tsx:96-107 | a step with errors shows exactly those errors with their messages, sends nothing, stays and leaves the saving flag alone; otherwise the errors are empty, the completing payload is sent, saving ends, and the page goes to the dashboard exactly when that save succeeded |
| OnboardingProgress.Percentage | src/components/onboarding/OnboardingProgress.tsx:20 | a finite percentage exists exactly when the total is not zero |
| OnboardingProgress.PercentageBounds | src/components/onboarding/OnboardingProgress.tsx:20 | a step within the wizard shows 0..100 percent, and 100 on the last step |
| OnboardingProgress.FourStepPercentages | src/components/onboarding/OnboardingProgress.tsx:20 | with four steps the header reads 25, 50, 75 and 100 percent |
| OnboardingProgress.PercentageGrowsWithStep | src/components/onboarding/OnboardingProgress.tsx:20 | a later step never shows a smaller percentage |
| OnboardingProgress.OneActiveStep | src/components/onboarding/OnboardingProgress.tsx:33-36 | exactly the indicator of the current step is active, the ones before it are done, and no two indicators are active |
| OnboardingProgress.ConnectorsBetweenSteps | src/components/onboarding/OnboardingProgress.tsx:43-44 | with one indicator per step, every indicator but the last draws a connector |
| OnboardingProgress.MobileCaption | src/components/onboarding/OnboardingProgress.tsx:77-78 | the caption exists exactly when the step is within the list, and is then that step's own caption |
| OnboardingProgress.MobileCaptionIsActiveStep | src/components/onboarding/OnboardingProgress.tsx:77-78 | the small-screen caption belongs to the indicator drawn as active |
| OnboardingProgress.WizardStepHasCaption | src/pages/Onboarding.tsx:17-22 | with the wizard's four captions every step in 1..4 has a caption and a finite percentage |
| ProfileEditor.PlainFieldsRequireText | src/hooks/useProfileEditor.ts:113-160 | each of the ten plain required inputs errs exactly when it is empty, with its own missing message |
| ProfileEditor.DegreeMajorRejectsBlank | src/hooks/useProfileEditor.ts:117-119 | the degree errs exactly when it is empty or all white space |
| ProfileEditor.GpaMustParseInRange | src/hooks/useProfileEditor.ts:123-127 | the GPA passes exactly when it is filled, parses, and lies in 0..100; a filled GPA that fails gets the range message |
| ProfileEditor.BudgetMaxRule | src/hooks/useProfileEditor.ts:143-148 | the maximum budget gets the order message exactly when it is filled and the filled minimum parses above it, and passes exactly when it is filled and not below the minimum; equal bounds pass |
| ProfileEditor.CountriesAndOptionalInputs | src/hooks/useProfileEditor.ts:137-139 | the country list errs exactly when it is empty; the intake term and the two scores never err |
| ProfileEditor.ErrorsIn | src/hooks/useProfileEditor.ts:184-189 | the loop's error map holds exactly the listed inputs that fail, each with its own message |
| ProfileEditor.ErrorsOf | src/hooks/useProfileEditor.ts:165-193 | the error map holds exactly the fourteen required inputs that fail, each with its own message |
| ProfileEditor.ProfileEditorState.constructor | src/hooks/useProfileEditor.ts:33-39 | the editor starts without a profile, with the empty form as both current and original data, no errors, loading, not saving and not dirty |
| ProfileEditor.ProfileEditorState.FetchProfile | src/hooks/useProfileEditor.ts:42-96 | a stored row becomes the profile and loads the form, which becomes the original data, leaving the editor clean; without a session, on an error or without a row the data stay; loading always ends |
| ProfileEditor.ProfileEditorState.UpdateField | src/hooks/useProfileEditor.ts:104-108 | only the given field changes, its error is cleared and every other error kept, and the dirty flag follows the form |
| ProfileEditor.ProfileEditorState.ValidateAll | src/hooks/useProfileEditor.ts:165-193 | the shown errors become the form's error map, and the result is true exactly when every required input passes |
| ProfileEditor.ProfileEditorState.SaveProfile | src/hooks/useProfileEditor.ts:195-257 | a form with errors is not sent; without a session nothing is sent; otherwise exactly the form's data columns are sent; the result is true exactly when the form is valid, there is a session and the update succeeds, and only then does the form become the original data and the editor clean |
| ProfileEditor.ProfileEditorState.DiscardChanges | src/hooks/useProfileEditor.ts:259-263 | the form returns to the original data with no errors and no changes |
| ProfileEditor.ValidExactlyWhenNoErrors | src/hooks/useProfileEditor.ts:191-192 | the error map is empty exactly when every required input passes |
| ProfileEditor.OptionalInputsNeverErr | src/hooks/useProfileEditor.ts:167-182 | the intake term and the two scores never appear among the errors |
| ProfileEditor.EditBackRestores | src/hooks/useProfileEditor.ts:104-105 | typing a field's old value back restores the form it was changed from |
| ResetUserData.ResetProfile | src/hooks/useResetUserData.ts:56-80 | the reset row has every data column null, onboarding not completed, step 1 and stage onboarding |
| ResetUserData.ResetForgetsData | src/hooks/useResetUserData.ts:56-80 | the reset row does not depend on what the row held before, and resetting twice is resetting once |
| ResetUserData.NothingDoneAllMissing | src/hooks/useProfile.ts:37-50 | when no checklist field is completed, all of them are listed missing and none is counted |
| ResetUserData.ResetProfileStrength | src/hooks/useResetUserData.ts:55-80 | a reset profile has exactly the checklist strength of no profile at all: 0 of 15, everything missing |
| ResetUserData.ResetProfileDetailed | src/hooks/useResetUserData.ts:55-80 | a reset profile rates weak, missing, risky with a readiness of 28, while a missing profile shows 0 |
| ResetUserData.ResetRestartsOnboarding | src/hooks/useResetUserData.ts:76-78 | after a reset the computed stage is onboarding, in agreement with the stored stage, the wizard resumes at step 1 and the form loads empty |
| ResetUserData.UserRows.constructor | src/hooks/useResetUserData.ts:14-17 | the store holds the given task rows, university rows and profile row |
| ResetUserData.UserRows.DeleteTasks | src/hooks/useResetUserData.ts:24-27 | the user's task rows are gone |
| ResetUserData.UserRows.DeleteUniversities | src/hooks/useResetUserData.ts:40-43 | the user's university rows are gone |
| ResetUserData.UserRows.ResetProfileRow | src/hooks/useResetUserData.ts:56-80 | a stored profile row is replaced by its reset form; no row stays no row |
| ResetUserData.ResetHook.constructor | src/hooks/useResetUserData.ts:12 | the hook starts not resetting |
| ResetUserData.ResetHook.Reset | src/hooks/useResetUserData.ts:14-108 | true with the success notice exactly when there is a user and all three writes succeed; each failure has its own notice; tasks, universities and profile are cleared in that order, stopping at the first failure with the earlier deletions kept; resetting ends on every path |
| ProfileSidebar.SidebarStrength | src/components/counsellor/ProfileSidebar.tsx:29-66 | 0 without a profile, otherwise exactly the points the profile earns, and always within 0..100 |
| ProfileSidebar.FullMarksExactly | src/components/counsellor/ProfileSidebar.tsx:35-63 | a profile scores 100 exactly when every scored input is truthy, both tests are taken and the statement of purpose is ready |
| ProfileSidebar.UnscoredInputs | src/components/counsellor/ProfileSidebar.tsx:35-63 | the intake term and the two exam scores never change the strength, and a zero GPA or zero minimum budget counts like a missing one |
| ProfileSidebar.GetStatusIcon | src/components/counsellor/ProfileSidebar.tsx:22-27 | a check exactly for taken or ready, a clock exactly for planned or draft, and the warning for a missing status |
| ProfileSidebar.CountryLabel | src/components/counsellor/ProfileSidebar.tsx:72 | the label of the first country with the code, the code itself when that label is empty, and the code when no country has it |
| ProfileSidebar.CountryLabels | src/components/counsellor/ProfileSidebar.tsx:71-73 | one label per preferred code, in the same order; no labels without a profile or a country list |
| ProfileSidebar.UnknownCodesShowThemselves | src/components/counsellor/ProfileSidebar.tsx:72 | a code that is not in the country list is shown as it is |
| ProfileSidebar.CountryChips | src/components/counsellor/ProfileSidebar.tsx:147-160 | the first three labels are shown, and a "+n" chip appears exactly when there are more than three, counting the rest |
| ProfileSidebar.StrengthHint | src/components/counsellor/ProfileSidebar.tsx:90-92 | the hint under the bar is "complete more" below 50, "good progress" from 50 to below 75, and "strong" from 75 |
| UniversitiesHook.WithoutId | src/hooks/useUniversities.ts:159 | exactly the entries whose id differs are kept, in their order; an entry without an id is always kept |
| UniversitiesHook.WithoutName | src/hooks/useUniversities.ts:133 | exactly the recommendations with a different name are kept, in their order |
| UniversitiesHook.SetLocked | src/hooks/useUniversities.ts:189-193 | the list keeps its length; every entry with the id gets the new lock flag and every other entry is unchanged |
| UniversitiesHook.LockedCount | src/hooks/useUniversities.ts:257 | the count never exceeds the shortlist and is positive exactly when some entry is locked |
| UniversitiesHook.UnlockAfterLock | src/hooks/useUniversities.ts:176-241 | unlocking after locking is just unlocking, and restores the shortlist when none of its entries with that id was locked |
| UniversitiesHook.LockedCountAfterUpdate | src/hooks/useUniversities.ts:196-201 | locking an entry that is on the shortlist leaves at least one locked; unlocking the only locked id leaves none |
| UniversitiesHook.NoticeFor | src/hooks/useUniversities.ts:58-95 | the rate-limit notice exactly for status 429, the credits notice exactly for 402, and the generated notice exactly for an answer |
| UniversitiesHook.UniversitiesHookState.constructor | src/hooks/useUniversities.ts:12-16 | the hook starts with no recommendations, an empty shortlist, not generating, loading, and no stage sync fired |
| UniversitiesHook.UniversitiesHookState.FetchShortlisted | src/hooks/useUniversities.ts:18-37 | the returned rows replace the shortlist when there is a user and the query succeeds, and it stays otherwise; loading ends on every path |
| UniversitiesHook.UniversitiesHookState.GenerateRecommendations | src/hooks/useUniversities.ts:44-99 | without a profile or while generating nothing happens; otherwise an answer replaces the recommendations (none when it lists none), a failure keeps them, the notice follows the reply and generating ends |
| UniversitiesHook.UniversitiesHookState.AddToShortlist | src/hooks/useUniversities.ts:102-147 | a successful insert appends the stored row, shortlisted and unlocked, and removes every recommendation of that name; otherwise nothing changes |
| UniversitiesHook.UniversitiesHookState.RemoveFromShortlist | src/hooks/useUniversities.ts:150-173 | a successful delete drops the entries with that id; a failed one changes nothing |
| UniversitiesHook.UniversitiesHookState.LockUniversity | src/hooks/useUniversities.ts:176-215 | a successful update locks the entries with that id and fires the lock_choices sync exactly when one entry is locked afterwards; a failed update changes nothing |
| UniversitiesHook.UniversitiesHookState.UnlockUniversity | src/hooks/useUniversities.ts:218-255 | a successful update unlocks the entries with that id and fires the discover sync exactly when none is locked afterwards; a failed update changes nothing |
| UniversitiesPage.Filtered | src/pages/Universities.tsx:97-98 | exactly the universities that pass the filters are kept, in list order |
| UniversitiesPage.EmptyFiltersKeepEverything | src/pages/Universities.tsx:84-95 | with no filter set every university passes and both lists show in full |
| UniversitiesPage.TextFiltersDemandEquality | src/pages/Universities.tsx:85-89 | setting country, category, degree type, field or competition level to a non-empty value adds exactly the equality test on that attribute |
| UniversitiesPage.EmptyCategoryIsUnset | src/pages/Universities.tsx:85-86 | an empty country or category filters exactly like an unset one |
| UniversitiesPage.BudgetRejectsOnlyAbove | src/pages/Universities.tsx:90-93 | a budget rejects a university exactly when tuition plus living cost, missing amounts counted as 0, is above it; a budget of 0 still applies |
| UniversitiesPage.IntakeYearIgnored | src/pages/Universities.tsx:84-95 | the intake-year filter never changes the outcome |
| UniversitiesPage.TighterFiltersShrink | src/pages/Universities.tsx:97-98 | filters that constrain at least as much keep a sublist, in order, of what the looser filters keep |
| UniversitiesPage.CategoryGroup | src/pages/Universities.tsx:202 | a group holds exactly the filtered recommendations of its category, in list order |
| UniversitiesPage.CategorySections | src/pages/Universities.tsx:201-203 | the dream, target and safe sections appear in that order, each exactly when its group is not empty |
| UniversitiesPage.GroupsCoverList | src/pages/Universities.tsx:201-203 | when every recommendation is dream, target or safe, the three groups together show each of them once |
| UniversitiesPage.LockedSection | src/pages/Universities.tsx:230-238 | the locked heading appears exactly when some shortlisted university is locked, and lists exactly the locked ones that pass the filters |
| UniversitiesPage.UnlockedSection | src/pages/Universities.tsx:241-248 | the shortlisted heading appears exactly when some shortlisted university is unlocked, and lists exactly the unlocked ones that pass the filters |
| UniversitiesPage.LockPromptRule | src/pages/Universities.tsx:251 | the lock prompt shows exactly when the shortlist is not empty and nothing on it is locked, and a successful lock of a shortlisted entry hides it |
| UniversitiesPage.UniversitiesPageState.constructor | src/pages/Universities.tsx:20-21 | the page starts with no filters and no pending unlock |
| UniversitiesPage.UniversitiesPageState.HandleUnlock | src/pages/Universities.tsx:74-76 | the unlock button only records the id awaiting confirmation |
| UniversitiesPage.UniversitiesPageState.CloseDialog | src/pages/Universities.tsx:269 | closing the dialog forgets the pending id, and the dialog is closed |
| UniversitiesPage.UniversitiesPageState.ConfirmUnlock | src/pages/Universities.tsx:77-82 | with no pending id nothing changes; with one, the hook unlocks it (syncing discover when nothing is locked afterwards, changing nothing when the update fails) and the pending id is cleared |
| ApplicationTasks.FindTask | src/hooks/useApplicationTasks.ts:111-112 | nothing is found exactly when no task has the id; otherwise the first task with the id is found |
| ApplicationTasks.SetCompletion | src/hooks/useApplicationTasks.ts:126-130 | the list keeps its length; each task with the id gets the new state, stamped exactly when it is completed, and every other task is unchanged |
| ApplicationTasks.WithoutTask | src/hooks/useApplicationTasks.ts:156 | exactly the tasks with another id are kept, in list order |
| ApplicationTasks.FindAfterSetCompletion | src/hooks/useApplicationTasks.ts:114-130 | after the update the task is still found and carries the new state |
| ApplicationTasks.ToggleTwiceRestores | src/hooks/useApplicationTasks.ts:114-130 | with distinct ids, toggling a present task twice restores every task's completion state |
| ApplicationTasks.InCategory | src/hooks/useApplicationTasks.ts:173-178 | a group holds only tasks of its category, taken from the list |
| ApplicationTasks.InCategoryEmptyIff | src/hooks/useApplicationTasks.ts:173-178 | a group is empty exactly when no task has its category |
| ApplicationTasks.GroupByCategory | src/hooks/useApplicationTasks.ts:173-178 | a group exists exactly for each category some task has, and holds exactly the tasks of that category in list order |
| ApplicationTasks.GroupSizesSnoc | src/hooks/useApplicationTasks.ts:173-178 | appending a task grows the named groups by the number of times its category is named |
| ApplicationTasks.GroupsPartitionTasks | src/hooks/useApplicationTasks.ts:173-178 | when every task has one of the five categories, the five group sizes add up to the number of tasks |
| ApplicationTasks.CompletedCount | src/hooks/useApplicationTasks.ts:180 | the completed count never exceeds the list, and equals it exactly when every task is completed |
| ApplicationTasks.CompletionLine | src/pages/Dashboard.tsx:292 | the "c of n completed" line: n is the number of tasks, c is at most n, and c equals n exactly when everything is done |
| ApplicationTasks.ProgressPercentage | src/hooks/useApplicationTasks.ts:180-182 | 0 for no tasks, else the rounded completed share; always 0..100, 100 when all are done and 0 when none is |
| ApplicationTasks.NoticeFor | src/hooks/useApplicationTasks.ts:57-93 | the rate-limit notice exactly for 429, the credits notice exactly for 402, "already generated" exactly when the server answers regenerate false to a first generation, "regenerated" exactly for an answered regeneration |
| ApplicationTasks.ApplicationTasksHook.constructor | src/hooks/useApplicationTasks.ts:10-12 | the hook starts with no tasks, loading and not generating |
| ApplicationTasks.ApplicationTasksHook.FetchTasks | src/hooks/useApplicationTasks.ts:15-33 | the returned rows replace the list when there is a user and the query succeeds, and it stays otherwise; loading ends on every path |
| ApplicationTasks.ApplicationTasksHook.GenerateTasks | src/hooks/useApplicationTasks.ts:40-106 | while generating nothing happens; otherwise generating ends on every path, no session gives the error notice, the notice follows the reply, and only an answer refetches the list |
| ApplicationTasks.ApplicationTasksHook.ToggleTaskCompletion | src/hooks/useApplicationTasks.ts:109-144 | an absent id or a failed update changes nothing; otherwise the tasks with the id take the opposite of the found task's state |
| ApplicationTasks.ApplicationTasksHook.DeleteTask | src/hooks/useApplicationTasks.ts:147-170 | a successful delete drops exactly the tasks with that id; a failed one changes nothing |
| GenerateTasks.TasksToInsert | supabase/functions/generate-tasks/index.ts:234-244 | one row per generated task, in the same order: owned by the caller, tied to no university, marked AI-generated, sort order equal to its position, and an empty due date stored as null |
| GenerateTasks.InsertedRowsGiveBackTasks | supabase/functions/generate-tasks/index.ts:234-244 | reading a stored row back gives the generated task (an empty due date read back as none), and sort orders strictly increase along the rows |
| GenerateTasks.IntakeDateNeedsBoth | supabase/functions/generate-tasks/index.ts:122-124 | the intake date is "Not specified" unless both the term and the year are truthy, and then it starts with the term and a space and ends with the year |
| GenerateTasks.GatewayStatusMapping | supabase/functions/generate-tasks/index.ts:203-219 | a failed gateway call answers 429 or 402 for those statuses and 500 for every other; only the rate-limit outcome has status 429 and only the credits outcome 402 |
| GenerateTasks.Gate | supabase/functions/generate-tasks/index.ts:39-115 | the request passes the gates exactly when it is not a preflight, carries an authorization header, belongs to a user, has a locked university, and asks to regenerate with a successful delete whenever tasks exist; a gate's own answer is never a gateway, failure or success outcome |
| GenerateTasks.AuthorizationComesFirst | supabase/functions/generate-tasks/index.ts:44-64 | without an authorization header or a user the answer is 401 and no row changes |
| GenerateTasks.NoLockedUniversitiesNoChange | supabase/functions/generate-tasks/index.ts:80-85 | a signed-in caller with no locked university gets 400 and no row changes |
| GenerateTasks.ExistingTasksGate | supabase/functions/generate-tasks/index.ts:87-115 | with tasks present, a request that does not ask to regenerate gets "already generated" with 200 and no change, a failed delete gets 500 and no change, and only a literal true counts as asking |
| GenerateTasks.WithoutRowsOfExactly | supabase/functions/generate-tasks/index.ts:103-107 | deleting a user's rows leaves none of theirs and every other user's rows as they were |
| GenerateTasks.AppendOwnedRows | supabase/functions/generate-tasks/index.ts:247-250 | inserting rows owned by the caller appends them to the caller's rows and leaves other users' rows alone |
| GenerateTasks.OtherUsersUntouched | supabase/functions/generate-tasks/index.ts:38-272 | whatever the request and the services answer, no other user's rows change |
| GenerateTasks.CallerTasksAfterGates | supabase/functions/generate-tasks/index.ts:117-264 | past the gates, a success reports the number of generated tasks and leaves the caller with the rows to insert after their earlier rows, or after none when they were regenerated; any failure leaves the caller's rows as the gates left them |
| GenerateTasks.FailedRegenerationLosesTasks | supabase/functions/generate-tasks/index.ts:103-115 | when a regeneration deleted the old tasks and generation then fails, the caller is left with no tasks, and the answer is 429, 402 or 500 |
| GenerateTasks.TaskTable.constructor | supabase/functions/generate-tasks/index.ts:90-94 | the table starts with the given rows |
| GenerateTasks.TaskTable.DeleteRowsOf | supabase/functions/generate-tasks/index.ts:103-107 | the table loses exactly the given user's rows |
| GenerateTasks.TaskTable.Insert | supabase/functions/generate-tasks/index.ts:247-250 | the rows are appended to the table |
| GenerateTasks.Handle | supabase/functions/generate-tasks/index.ts:38-272 | the handler answers the outcome the request and services determine, with that outcome's status, and leaves the table holding the rows that outcome implies |
| UniversityRecommendations.CleanContent | supabase/functions/university-recommendations/index.ts:156-166 | the cleanup steps leave the cleaned content: trimmed, one fence prefix and one closing fence cut, trimmed again |
| UniversityRecommendations.CleanedHasNoEdgeSpace | supabase/functions/university-recommendations/index.ts:156-166 | cleaned content has no white space at either end, so trimming it again changes nothing |
| UniversityRecommendations.JsonFenceIsFence | supabase/functions/university-recommendations/index.ts:157-162 | content opening with the tagged fence also opens with the bare fence, so after the tagged one is cut the bare check runs on what is left |
| UniversityRecommendations.UnfencedIsOnlyTrimmed | supabase/functions/university-recommendations/index.ts:156-166 | content with no fence at either end is only trimmed |
| UniversityRecommendations.TrimLinePadded | supabase/functions/university-recommendations/index.ts:156-166 | a payload without edge white space, padded by a newline on each side, trims back to itself |
| UniversityRecommendations.FencesComeOff | supabase/functions/university-recommendations/index.ts:157-165 | the three cuts turn a fenced block, opened with or without the json tag, into its newline-padded payload |
| UniversityRecommendations.FencedBlockIsTrimmed | supabase/functions/university-recommendations/index.ts:156-166 | content starting and ending with a backtick is not changed by the first trim, so cleanup is cuts followed by one trim |
| UniversityRecommendations.FencedPayloadRecovered | supabase/functions/university-recommendations/index.ts:156-166 | a payload wrapped in a fenced block, tagged json or not, is recovered exactly |
| UniversityRecommendations.FilterLinesOnlyWhenSet | supabase/functions/university-recommendations/index.ts:97-98 | the country line is present exactly when a country filter is truthy and ends with that country, the category line likewise, and no other filter field matters |
| UniversityRecommendations.SuccessStatus | supabase/functions/university-recommendations/index.ts:58-188 | the answer is 200 exactly for a preflight and for parsed recommendations |
| UniversityRecommendations.PassedGatesOutcome | supabase/functions/university-recommendations/index.ts:142-182 | once the key is set, the gateway answered and the content is truthy, the answer is the parsed recommendations, or the parse error when the cleaned content does not parse |
| UniversityRecommendations.Handle | supabase/functions/university-recommendations/index.ts:57-190 | the handler answers the outcome the request and the services determine, with that outcome's status |
| UniversityRecommendations.MissingKeyStopsFirst | supabase/functions/university-recommendations/index.ts:65-72 | without an API key the answer is "not configured" with 500, whatever the gateway would have answered |
| UniversityRecommendations.StatusMapping | supabase/functions/university-recommendations/index.ts:119-182 | a failed gateway call answers 429 or 402 for those statuses and 500 otherwise, an empty content is its own error, and after a successful call the answer is 200 exactly when the content is truthy and its cleaned form parses |
| UniversityRecommendations.HookSeesGatewayLimits | supabase/functions/university-recommendations/index.ts:119-175 | the recommendations hook shows the rate-limit notice exactly for a 429 from the gateway and the credits notice exactly for a 402, and receives the parsed list on success |
| DashboardPage.StageIndex | src/pages/Dashboard.tsx:107 | the index is the first position of the stage in the tracker's list |
| DashboardPage.StagesListedOnce | src/pages/Dashboard.tsx:45 | each stage appears in the list exactly once, at the position its index names |
| DashboardPage.TrackerMarksCurrentOnly | src/pages/Dashboard.tsx:109-113 | exactly the current stage is marked current, the stages before it completed and those after it locked |
| DashboardPage.TrackerIsOrdered | src/pages/Dashboard.tsx:109-113 | along the tracker no completed stage follows a current or locked one, and no locked stage precedes one |
| DashboardPage.ShownDashboardPassedOnboarding | src/pages/Dashboard.tsx:107-113 | with a completed profile the onboarding stage shows as completed, and discover is completed with a locked university and current without one |
| DashboardPage.ReadinessColorMonotone | src/pages/Dashboard.tsx:156 | a higher readiness score is never shown in a worse colour |
| DashboardPage.ReadinessColorOfProfiles | src/pages/Dashboard.tsx:156 | a profile at the top of every band is shown green, one at the bottom of every band red, and so is a missing profile |
| DashboardPage.ProgressValue | src/pages/Dashboard.tsx:160 | the bar value is the score capped at 100 |
| DashboardPage.ProgressShowsScore | src/pages/Dashboard.tsx:160 | the readiness score never exceeds 100, so the bar shows the score itself |
| DashboardPage.TodoItems | src/pages/Dashboard.tsx:295 | the to-do card lists the first five tasks in list order, all of them when there are fewer |
| DashboardPage.TodoCardImpliesLockedStage | src/pages/Dashboard.tsx:279 | the to-do card appears only when the computed stage is lock_choices or applications |
| DashboardPage.BeforeAt | src/pages/Dashboard.tsx:106 | the text before the first "@": a prefix of the address with no "@", followed in the address by "@" when shorter |
| DashboardPage.BeforeAtOfAddress | src/pages/Dashboard.tsx:106 | the local part of an address is recovered whatever the domain |
| DashboardPage.UserName | src/pages/Dashboard.tsx:106 | the greeting is never empty: the full name when truthy, otherwise something without "@", and "Student" without a name and an address |
| DashboardPage.GreetingFromAddress | src/pages/Dashboard.tsx:106 | without a full name, or with an empty one, the greeting is the address's local part, or "Student" when that part is empty |
| DashboardPage.DashboardNeedsCompletedProfile | src/pages/Dashboard.tsx:88-105 | a signed-in user sees the dashboard only with a completed profile and a stage past onboarding; after loading, the page either renders or redirects; it redirects exactly when loading is done and the computed stage is onboarding |
| ApplicationsPage.ViewOf | src/pages/Applications.tsx:72-122 | the guidance is shown only with a locked university and, for a signed-in user, a completed profile; the spinner exactly while loading or when onboarding must be completed |
| ApplicationsPage.GuidanceFollowsStage | src/pages/Applications.tsx:72-122 | after loading, a signed-in user gets the guidance exactly in the lock_choices and applications stages, the lock gate exactly in discover, and the redirect to onboarding exactly in onboarding |
| ApplicationsPage.RegenerateChoice | src/pages/Applications.tsx:144-171 | the page asks to regenerate exactly when it already lists tasks |
| ApplicationsPage.ChoiceNeverAlreadyGenerated | src/pages/Applications.tsx:144-171 | when the page lists exactly the caller's stored tasks, its choice never draws the "already generated" answer from the task generator |
| ApplicationsPage.InsertByDue | src/pages/Applications.tsx:233 | inserting a task adds exactly that task to the list |
| ApplicationsPage.SortByDue | src/pages/Applications.tsx:231-233 | the sort is a permutation of the list |
| ApplicationsPage.SortedHead | src/pages/Applications.tsx:233 | every task of a list sorted by due date is due no earlier than anything below its first |
| ApplicationsPage.InsertKeepsSorted | src/pages/Applications.tsx:233 | inserting into a list sorted by due date keeps it sorted |
| ApplicationsPage.SortByDueSorted | src/pages/Applications.tsx:233 | the sort leaves the due dates in non-decreasing order |
| ApplicationsPage.TimelineShape | src/pages/Applications.tsx:231-234 | the timeline holds at most eight dated tasks of the list, in due order, drawn without repetition from the dated tasks; eight when at least eight are dated, and all of them when at most eight are |
| ApplicationsPage.TakeSplits | src/pages/Applications.tsx:234 | the first n tasks and the rest together are the whole list |
| ApplicationsPage.TimelineHoldsEarliest | src/pages/Applications.tsx:231-234 | a dated task left out of the timeline is due no earlier than any task in it |
| ApplicationsPage.TimelineShownIffNonEmpty | src/pages/Applications.tsx:224 | the timeline card is shown exactly when its list is not empty |
| UniversityFilters.PreferredFirstPermutes | src/components/universities/UniversityFilters.tsx:29-32 | putting the preferred countries first only reorders the list |
| UniversityFilters.SortedCountriesPermutes | src/components/universities/UniversityFilters.tsx:29-32 | the country picker offers every known country exactly as often as the list holds it |
| UniversityFilters.PreferredComeFirst | src/components/universities/UniversityFilters.tsx:29-32 | no country outside the preferences comes before a preferred one |
| UniversityFilters.GroupsKeepCountryOrder | src/components/universities/UniversityFilters.tsx:58-59 | the "Your Preferred" and "Other Countries" groups each list their countries in the order of the full list |
| UniversityFilters.NoPreferenceKeepsOrder | src/components/universities/UniversityFilters.tsx:29-32 | without preferences the countries keep their order |
| UniversityFilters.NoClearMeansOnlyOtherFilters | src/components/universities/UniversityFilters.tsx:26 | when the clear button is hidden no country or category filter is in force, and no budget or degree value shows it |
| UniversityFilters.SelectCountry | src/components/universities/UniversityFilters.tsx:51-52 | choosing a country sets the country filter, with the empty choice meaning none, and changes nothing else |
| UniversityFilters.SelectCategory | src/components/universities/UniversityFilters.tsx:84-88 | choosing a category sets the category filter to the chosen value and changes nothing else |
| UniversityFilters.AllChoiceUnsets | src/components/universities/UniversityFilters.tsx:51-52 | choosing "All Countries" or "All Categories" lifts that filter: the clear button then depends on the other filter, and a university passes exactly as with that filter unset |
| UniversityFilters.ChoiceSets | src/components/universities/UniversityFilters.tsx:51-52 | choosing a real country or category shows the clear button and keeps exactly the universities of that country or category among those the other filters pass |
| UniversityFilters.ShownCountry | src/components/universities/UniversityFilters.tsx:51 | the picker shows the empty choice exactly when no truthy country is set, and choosing what it shows keeps the filter as it is, an empty one becoming none |
| StudyGoalsStep.ToggleCountry | src/components/onboarding/steps/StudyGoalsStep.tsx:17-24 | after a toggle the country is preferred exactly when it was not, every other country keeps its state, a removal shortens the list and an addition appends at the end |
| StudyGoalsStep.RemovalKeepsOrder | src/components/onboarding/steps/StudyGoalsStep.tsx:19-20 | removing a country keeps the remaining preferences in order and removes every copy of it |
| StudyGoalsStep.ToggleAbsentTwice | src/components/onboarding/steps/StudyGoalsStep.tsx:17-24 | adding and then removing a country restores the preferences |
| StudyGoalsStep.TogglePresentTwice | src/components/onboarding/steps/StudyGoalsStep.tsx:17-24 | removing and re-adding a country moves it, as a single copy, to the end |
| StudyGoalsStep.ClickFlipsOneBox | src/components/onboarding/steps/StudyGoalsStep.tsx:152-160 | a click on a country flips that country's box and no other, and changes no other form field |
| StudyGoalsStep.IntakeYears | src/components/onboarding/steps/StudyGoalsStep.tsx:14-15 | five intake years are offered |
| StudyGoalsStep.IntakeYearsAreNextFive | src/components/onboarding/steps/StudyGoalsStep.tsx:14-15 | the years offered are exactly this year and the four after it, in increasing order |
| TaskList.Toggled | src/components/applications/TaskList.tsx:41-51 | a toggle flips whether the category is open and leaves every other category as it was |
| TaskList.ToggleTwiceRestores | src/components/applications/TaskList.tsx:41-51 | toggling a category twice restores the open set |
| TaskList.AllCategories | src/components/applications/TaskList.tsx:28 | the initial set holds exactly the five categories of the display order |
| TaskList.TaskListState.constructor | src/components/applications/TaskList.tsx:37-39 | every category starts open |
| TaskList.TaskListState.ToggleCategory | src/components/applications/TaskList.tsx:41-51 | the open set becomes the toggled one |
| TaskList.Sections | src/components/applications/TaskList.tsx:55-57 | the sections shown keep the display order and are exactly the categories of that order that have at least one task |
| TaskList.SectionsOfGrouping | src/components/applications/TaskList.tsx:55-57 | for tasks grouped by category, a category gets a section exactly when it is in the display order and some task has it |
| ProfileStrengthCard.BadgeColorFollowsRank | src/components/profile/ProfileStrengthCard.tsx:18-22 | each badge is green for the best level of its band, amber for the middle one and red for the lowest |
| ProfileStrengthCard.LabelOf | src/components/profile/ProfileStrengthCard.tsx:55 | a level with a label is shown by its label, any other by its own name |
| ProfileStrengthCard.LevelsAllLabelled | src/components/profile/ProfileStrengthCard.tsx:14-16 | every level the strength calculation produces has a label, so no badge shows a raw level name |
| ProfileStrengthCard.IconMatchesDashboardColor | src/components/profile/ProfileStrengthCard.tsx:32-36 | the check icon is shown exactly when the dashboard shows the score in green |
| ProfileStrengthCard.MissingItems | src/components/profile/ProfileStrengthCard.tsx:84-89 | at most the first three missing fields are listed, in order |
| ProfileStrengthCard.MoreCount | src/components/profile/ProfileStrengthCard.tsx:90-92 | the "+k more" line appears exactly when more than three fields are missing |
| ProfileStrengthCard.MissingListAccountsForAll | src/components/profile/ProfileStrengthCard.tsx:84-92 | the listed fields and the "+k more" count add up to all the missing fields, and without that line every missing field is listed |
| ProfileStrengthCard.MissingShownForNearlyComplete | src/components/profile/ProfileStrengthCard.tsx:80 | the missing list is shown exactly when 10 to 14 of the 15 fields are complete, and never for a missing profile |

## Left out

- Database and authentication I/O: every select, insert, update and delete is an outcome parameter (data or an error); sessions, subscriptions to auth state changes and sign-out are not modelled.
- The LLM gateway: the request, the model name, the system prompt and the user prompt (other than the two filter lines and the intake date) are not modelled; the gateway is its status code and the content or tool call it returns. The `universityList` text of the task generator is prompt wording only.
- supabase/functions/ai-counsellor/index.ts is not part of this model: it is prompt templating and a stream relay, and its 429/402 mapping repeats the rule modelled for the recommendations handler.
- src/pages/Auth.tsx is not part of this model: its validation is delegated to a schema library whose rules are not visible.
- Clock-dependent task labels (due soon, overdue, "Today"/"Tomorrow") in TaskProgress.tsx and TaskCard.tsx are not modelled; the current year of the intake-year list and the completion timestamp of a toggled task are parameters.
- Floating point: percentages and the readiness score are computed on exact rationals with round-half-up (`Math.round`), GPA and budget averages as reals; JavaScript float rounding and the leniency of `parseInt`/`parseFloat` are not modelled (parsing is an abstract partial function).
- `toString` of numbers, `toLocaleString`, `toLocaleDateString`, capitalisation and `replace(/_/g, " ")` exist only for display and are not modelled; where a number is written into text, the printer is a parameter.
- Toast messages and other display texts are not modelled, except where a text decides behaviour (error texts of the handlers, the notices the hooks choose).
- React timing: effects are modelled as the condition under which they fire, not as scheduled callbacks; stale closures and interleaving of concurrent async calls are not modelled, so each action runs to completion on the state it sees.
- Exceptions thrown inside a `try` are folded into the failure outcome of the call that threw; no member models a throw that escapes.
- The auth effects of the Universities, Dashboard and Applications pages (reading the session, redirecting to the sign-in page) are not modelled; their `user` and `loading` values are inputs of the page predicates.
- The timeline's `Array.sort` with the comparator `a > b ? 1 : -1` is taken to be a sort by due date (an insertion sort in the model); the comparator never answers 0, so the order among equal dates is whatever the engine leaves, and the model fixes one such order. Strings are compared by Unicode code point, not by UTF-16 code unit.
- The timeline sorts a copy of the list; in the model lists are values, so the page's task list cannot be reordered by the sort and no separate lemma states it.
- OnboardingProgress with a total of zero steps: the percentage is then not a number in JavaScript; the model answers none.
- Pure presentation components and pages (Landing, Privacy, Terms, About, Profile, Counsellor, Navbar, Footer, Layout, UniversityCard and the remaining onboarding steps) carry no statable logic and are not modelled.
