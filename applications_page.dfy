/** The application guidance page: its gates, the generate/regenerate choice, and the
    timeline of the earliest-due tasks. */
module ApplicationsPage {
  import opened JsValues
  import opened Domain
  import opened Seqs
  import opened Text
  import opened DashboardStats
  import opened DashboardPage
  import GenerateTasks

  // ------------------------------------------------------------------ gates

  /** What the page shows. */
  datatype View = Spinner | LockUniversitiesFirst | Guidance

  /** The spinner while loading or until onboarding is done, then the lock gate when no
      university is locked, then the guidance itself. */
  function ViewOf(loading: bool, profileLoading: bool, hasUser: bool, profile: Option<Profile>, stats: Stats): (v: View)
    ensures v == Guidance ==> stats.hasLockedUniversities
    ensures v == Guidance && hasUser ==> profile.Some? && profile.value.onboarding_completed
    ensures v == Spinner <==> loading || profileLoading || MustCompleteOnboarding(hasUser, profile)
  {
    if loading || profileLoading || MustCompleteOnboarding(hasUser, profile) then Spinner
    else if !stats.hasLockedUniversities then LockUniversitiesFirst
    else Guidance
  }

  /** A signed-in user reaches the guidance exactly in the stages after discover, and
      is sent to onboarding, with the spinner up, in the onboarding stage. */
  lemma GuidanceFollowsStage(profile: Option<Profile>, stats: Stats, hasTasks: Option<bool>)
    ensures var stage := CalculateCurrentStage(profile, stats.hasLockedUniversities, hasTasks);
      (ViewOf(false, false, true, profile, stats) == Guidance <==> stage in {LockChoices, Applications})
      && (ViewOf(false, false, true, profile, stats) == LockUniversitiesFirst <==> stage == Discover)
      && (RedirectsToOnboarding(false, false, true, profile) <==> stage == Onboarding)
  {
  }

  /** The header and the empty state both ask for a first generation when there are no
      tasks, and the header asks for a regeneration otherwise. */
  function RegenerateChoice(tasks: seq<ApplicationTask>): (regenerate: bool)
    ensures regenerate <==> tasks != []
  {
    |tasks| != 0
  }

  /** The body the hook sends for the page's choice. */
  function ChoiceBody(tasks: seq<ApplicationTask>): GenerateTasks.JsonValue {
    if RegenerateChoice(tasks) then GenerateTasks.JsTrue else GenerateTasks.JsFalse
  }

  /** While the page shows exactly the tasks the server holds for the user, its choice
      never draws the "already generated" answer: with tasks it asks to regenerate,
      without them there is nothing to keep. */
  lemma ChoiceNeverAlreadyGenerated(tasks: seq<ApplicationTask>, req: GenerateTasks.Request,
                                    env: GenerateTasks.Services, rows: seq<GenerateTasks.TaskRow>)
    requires req.regenerateField == Some(ChoiceBody(tasks))
    requires env.user.Some? && env.existingQueryOk
    requires tasks != [] <==> GenerateTasks.OwnRows(env.user.value, rows) != []
    ensures GenerateTasks.HandlerOutcome(req, env, rows) != GenerateTasks.AlreadyGenerated
  {
  }

  // --------------------------------------------------------------- timeline

  /** `t.due_date` is truthy. */
  predicate Dated(t: ApplicationTask) {
    TruthyText(t.due_date)
  }

  function IsDated(): ApplicationTask -> bool {
    (t: ApplicationTask) => Dated(t)
  }

  /** The date a task is ordered by. */
  function Due(t: ApplicationTask): string {
    GetOr(t.due_date, "")
  }

  /** Non-decreasing due dates. */
  predicate SortedByDue(xs: seq<ApplicationTask>) {
    forall i, j :: 0 <= i < j < |xs| ==> StrLe(Due(xs[i]), Due(xs[j]))
  }

  /** Insert a task before the first one due strictly after it. */
  function InsertByDue(t: ApplicationTask, xs: seq<ApplicationTask>): (r: seq<ApplicationTask>)
    ensures |r| == |xs| + 1
    ensures multiset(r) == multiset(xs) + multiset{t}
    decreases |xs|
  {
    if xs == [] || StrLe(Due(t), Due(xs[0])) then [t] + xs
    else
      assert xs == [xs[0]] + xs[1..];
      [xs[0]] + InsertByDue(t, xs[1..])
  }

  /** The array sort with the comparator on due dates, taken as a sort by due date;
      the order among equal dates is the one the sort happens to leave. */
  function SortByDue(xs: seq<ApplicationTask>): (r: seq<ApplicationTask>)
    ensures |r| == |xs|
    ensures multiset(r) == multiset(xs)
    decreases |xs|
  {
    if xs == [] then []
    else
      assert xs == [xs[0]] + xs[1..];
      InsertByDue(xs[0], SortByDue(xs[1..]))
  }

  /** Every element of a sorted list is due no earlier than a date below its first. */
  lemma SortedHead(d: string, xs: seq<ApplicationTask>)
    requires xs != [] && SortedByDue(xs) && StrLe(d, Due(xs[0]))
    ensures forall j :: 0 <= j < |xs| ==> StrLe(d, Due(xs[j]))
  {
    forall j | 0 <= j < |xs| ensures StrLe(d, Due(xs[j])) {
      if j > 0 {
        StrLeTransitive(d, Due(xs[0]), Due(xs[j]));
      }
    }
  }

  /** Inserting into a sorted list keeps it sorted. */
  lemma {:induction false} InsertKeepsSorted(t: ApplicationTask, xs: seq<ApplicationTask>)
    requires SortedByDue(xs)
    ensures SortedByDue(InsertByDue(t, xs))
    decreases |xs|
  {
    var r := InsertByDue(t, xs);
    if xs == [] {
    } else if StrLe(Due(t), Due(xs[0])) {
      SortedHead(Due(t), xs);
      assert forall j :: 1 <= j < |r| ==> r[j] == xs[j - 1];
    } else {
      StrLeTotal(Due(t), Due(xs[0]));
      var rest := InsertByDue(t, xs[1..]);
      InsertKeepsSorted(t, xs[1..]);
      assert r == [xs[0]] + rest;
      forall j | 0 <= j < |rest| ensures StrLe(Due(xs[0]), Due(rest[j])) {
        assert rest[j] in multiset(xs[1..]) + multiset{t};
        if rest[j] in multiset(xs[1..]) {
          var k :| 0 <= k < |xs[1..]| && xs[1..][k] == rest[j];
          assert xs[k + 1] == rest[j];
        }
      }
      forall i, j | 0 <= i < j < |r| ensures StrLe(Due(r[i]), Due(r[j])) {
        if i > 0 {
          assert r[i] == rest[i - 1] && r[j] == rest[j - 1];
        } else {
          assert r[j] == rest[j - 1];
        }
      }
    }
  }

  /** The sort leaves the due dates in order. */
  lemma {:induction false} SortByDueSorted(xs: seq<ApplicationTask>)
    ensures SortedByDue(SortByDue(xs))
    decreases |xs|
  {
    if xs != [] {
      SortByDueSorted(xs[1..]);
      InsertKeepsSorted(xs[0], SortByDue(xs[1..]));
    }
  }

  /** The timeline: the dated tasks of a copy of the list, sorted by due date, the
      first eight of them. */
  function Timeline(tasks: seq<ApplicationTask>): seq<ApplicationTask> {
    Take(SortByDue(Filter(IsDated(), tasks)), 8)
  }

  /** The timeline holds only dated tasks of the list, at most eight, in due order;
      it holds eight whenever eight tasks are dated, and all of them otherwise. */
  lemma TimelineShape(tasks: seq<ApplicationTask>)
    ensures var tl, dated := Timeline(tasks), Filter(IsDated(), tasks);
      |tl| <= 8 && SortedByDue(tl)
      && multiset(tl) <= multiset(dated)
      && (forall i :: 0 <= i < |tl| ==> Dated(tl[i]) && tl[i] in tasks)
      && |tl| == (if |dated| < 8 then |dated| else 8)
      && (|dated| <= 8 ==> multiset(tl) == multiset(dated))
  {
    var dated := Filter(IsDated(), tasks);
    var sorted := SortByDue(dated);
    var tl := Timeline(tasks);
    SortByDueSorted(dated);
    TakeSplits(sorted, 8);
    forall i | 0 <= i < |tl| ensures Dated(tl[i]) && tl[i] in tasks {
      assert tl[i] == sorted[i];
      assert sorted[i] in multiset(dated);
    }
  }

  /** The first n elements and the rest make up the list. */
  lemma TakeSplits(xs: seq<ApplicationTask>, n: nat)
    ensures multiset(xs) == multiset(Take(xs, n)) + multiset(xs[|Take(xs, n)|..])
  {
    var k := |Take(xs, n)|;
    assert xs == Take(xs, n) + xs[k..];
  }

  /** The timeline holds the earliest-due dated tasks: every dated task left out is due
      no earlier than any task shown. */
  lemma TimelineHoldsEarliest(tasks: seq<ApplicationTask>, t: ApplicationTask)
    requires t in multiset(Filter(IsDated(), tasks)) - multiset(Timeline(tasks))
    ensures forall i :: 0 <= i < |Timeline(tasks)| ==> StrLe(Due(Timeline(tasks)[i]), Due(t))
  {
    var dated := Filter(IsDated(), tasks);
    var sorted := SortByDue(dated);
    var tl := Timeline(tasks);
    SortByDueSorted(dated);
    TakeSplits(sorted, 8);
    var rest := sorted[|tl|..];
    assert t in multiset(rest);
    var j :| 0 <= j < |rest| && rest[j] == t;
    assert sorted[|tl| + j] == t;
    forall i | 0 <= i < |tl| ensures StrLe(Due(tl[i]), Due(t)) {
      assert tl[i] == sorted[i];
    }
  }

  /** The timeline card is shown when some task has a due date. */
  predicate ShowTimeline(tasks: seq<ApplicationTask>) {
    exists i :: 0 <= i < |tasks| && Dated(tasks[i])
  }

  /** The card is shown exactly when its list is not empty. */
  lemma TimelineShownIffNonEmpty(tasks: seq<ApplicationTask>)
    ensures ShowTimeline(tasks) <==> Timeline(tasks) != []
  {
    FilterNonEmpty(IsDated(), tasks);
  }
}
