/** The journey stage a student is in, the dashboard counters it is derived from,
    and the write that mirrors the stage into the stored profile. */
module DashboardStats {
  import opened JsValues
  import opened Domain
  import opened Seqs

  /** The four stages, in journey order. */
  datatype Stage = Onboarding | Discover | LockChoices | Applications

  /** The value stored in `profiles.current_stage`. */
  function StageName(s: Stage): string {
    match s
    case Onboarding => "onboarding"
    case Discover => "discover"
    case LockChoices => "lock_choices"
    case Applications => "applications"
  }

  /** `STAGE_LABELS`. */
  function StageLabel(s: Stage): string {
    match s
    case Onboarding => "Onboarding"
    case Discover => "Discover"
    case LockChoices => "Lock Choices"
    case Applications => "Applications"
  }

  /** Different stages are stored and shown differently. */
  lemma StageNamesAndLabelsDistinct(s: Stage, t: Stage)
    ensures StageName(s) == StageName(t) ==> s == t
    ensures StageLabel(s) == StageLabel(t) ==> s == t
  {
  }

  /** `calculateCurrentStage`: onboarding until the profile is complete, then discover
      until a university is locked, then lock_choices until tasks exist. An absent
      `hasApplicationTasks` counts as false. */
  function CalculateCurrentStage(profile: Option<Profile>, hasLockedUniversities: bool, hasApplicationTasks: Option<bool>): (r: Stage)
    ensures r == Onboarding <==> profile.None? || !profile.value.onboarding_completed
    ensures r == Discover <==> profile.Some? && profile.value.onboarding_completed && !hasLockedUniversities
    ensures r == Applications <==>
      profile.Some? && profile.value.onboarding_completed && hasLockedUniversities && hasApplicationTasks == Some(true)
    ensures r == LockChoices <==>
      profile.Some? && profile.value.onboarding_completed && hasLockedUniversities && hasApplicationTasks != Some(true)
  {
    if profile.None? || !profile.value.onboarding_completed then Onboarding
    else if !hasLockedUniversities then Discover
    else if hasApplicationTasks == Some(true) then Applications
    else LockChoices
  }

  /** The dashboard counters. */
  datatype Stats = Stats(shortlistedCount: nat, lockedCount: nat, hasLockedUniversities: bool, totalUniversities: nat)

  const InitialStats := Stats(0, 0, false, 0)

  /** The counters derived from the user's university rows. */
  function StatsOf(universities: seq<University>): (s: Stats)
    ensures s.totalUniversities == |universities|
    ensures s.shortlistedCount <= s.totalUniversities && s.lockedCount <= s.totalUniversities
    ensures s.hasLockedUniversities <==> exists i :: 0 <= i < |universities| && universities[i].is_locked
    ensures s.hasLockedUniversities <==> s.lockedCount > 0
  {
    var shortlisted := Filter((u: University) => u.is_shortlisted, universities);
    var locked := Filter((u: University) => u.is_locked, universities);
    FilterNonEmpty((u: University) => u.is_locked, universities);
    Stats(|shortlisted|, |locked|, |locked| > 0, |universities|)
  }

  /** The auto-sync condition: a loaded profile whose stored stage differs. */
  predicate NeedsSync(profile: Option<Profile>, stage: Stage) {
    profile.Some? && profile.value.current_stage != StageName(stage)
  }

  /** Once the profile mirrors the stage, the auto-sync does not fire again. */
  lemma MirroredProfileNeedsNoSync(p: Profile, stage: Stage)
    ensures !NeedsSync(Some(p.(current_stage := StageName(stage))), stage)
    ensures NeedsSync(Some(p), stage) <==> p.current_stage != StageName(stage)
    ensures !NeedsSync(None, stage)
  {
  }

  /** The stored `current_stage` of each user, as `syncStageToDatabase` writes it. */
  class StageStore {
    var currentStage: map<string, string>

    constructor (initial: map<string, string>)
      ensures currentStage == initial
    {
      currentStage := initial;
    }

    /** `syncStageToDatabase`: false without a session or when the update fails (the
        stored stage is then untouched), true after the update succeeded. It never
        throws. */
    method SyncStageToDatabase(stage: Stage, session: Option<string>, updateFails: bool) returns (ok: bool)
      modifies this
      ensures ok <==> session.Some? && !updateFails
      ensures ok ==> currentStage == old(currentStage)[session.value := StageName(stage)]
      ensures !ok ==> currentStage == old(currentStage)
    {
      if session.None? {
        return false;
      }
      if updateFails {
        return false;
      }
      currentStage := currentStage[session.value := StageName(stage)];
      return true;
    }
  }

  /** The `useDashboardStats` hook's state and the stage syncs it has requested. */
  class DashboardStatsHook {
    var stats: Stats
    var hasApplicationTasks: bool
    var loading: bool
    var syncRequests: seq<Stage>

    constructor ()
      ensures stats == InitialStats && !hasApplicationTasks && loading && syncRequests == []
    {
      stats := InitialStats;
      hasApplicationTasks := false;
      loading := true;
      syncRequests := [];
    }

    /** `fetchStats`: without a session only loading ends; otherwise the counters come
        from the university rows when those were returned, and tasks exist iff the task
        query returned a row. */
    method FetchStats(session: bool, universities: Option<seq<University>>, taskRows: Option<nat>)
      modifies this
      ensures !loading && syncRequests == old(syncRequests)
      ensures !session ==> stats == old(stats) && hasApplicationTasks == old(hasApplicationTasks)
      ensures session ==> stats == (if universities.Some? then StatsOf(universities.value) else old(stats))
      ensures session ==> (hasApplicationTasks <==> GetOr(taskRows, 0) > 0)
    {
      if !session {
        loading := false;
        return;
      }
      if universities.Some? {
        stats := StatsOf(universities.value);
      }
      hasApplicationTasks := GetOr(taskRows, 0) > 0;
      loading := false;
    }

    /** The stage the hook reports. */
    function CurrentStage(profile: Option<Profile>): Stage
      reads this
    {
      CalculateCurrentStage(profile, stats.hasLockedUniversities, Some(hasApplicationTasks))
    }

    /** The auto-sync effect: request a write of the computed stage exactly when the
        loaded profile stores a different one. */
    method AutoSync(profile: Option<Profile>)
      modifies this`syncRequests
      ensures syncRequests == old(syncRequests)
        + (if NeedsSync(profile, CurrentStage(profile)) then [CurrentStage(profile)] else [])
    {
      var stage := CurrentStage(profile);
      if profile.Some? && profile.value.current_stage != StageName(stage) {
        syncRequests := syncRequests + [stage];
      }
    }
  }
}
