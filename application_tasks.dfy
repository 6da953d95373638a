/** The application-tasks hook: the task list, completion toggling, deletion, the
    grouping by category, the progress counters, and the client side of task
    generation. */
module ApplicationTasks {
  import opened JsValues
  import opened Domain
  import opened Seqs

  // ------------------------------------------------------------- list updates

  /** `tasks.find(t => t.id === id)`. */
  function FindTask(ts: seq<ApplicationTask>, id: string): (r: Option<ApplicationTask>)
    ensures r.None? <==> forall i :: 0 <= i < |ts| ==> ts[i].id != id
    ensures r.Some? ==> exists i :: (0 <= i < |ts| && ts[i] == r.value && ts[i].id == id
      && forall j :: 0 <= j < i ==> ts[j].id != id)
    decreases |ts|
  {
    if ts == [] then None
    else if ts[0].id == id then Some(ts[0])
    else
      var r := FindTask(ts[1..], id);
      if r.Some? then
        ghost var i :| 1 <= i + 1 < |ts| && ts[1..][i] == r.value && ts[1..][i].id == id
          && forall j :: 0 <= j < i ==> ts[1..][j].id != id;
        assert ts[i + 1] == r.value;
        r
      else r
  }

  /** The tasks with that id get the new completion state, stamped with `now` when
      completed and cleared otherwise; the others are untouched. */
  function SetCompletion(ts: seq<ApplicationTask>, id: string, completed: bool, now: string): (r: seq<ApplicationTask>)
    ensures |r| == |ts|
    ensures forall i :: 0 <= i < |ts| ==> (r[i] ==
      if ts[i].id == id then ts[i].(is_completed := completed, completed_at := if completed then Some(now) else None)
      else ts[i])
  {
    seq(|ts|, i requires 0 <= i < |ts| =>
      if ts[i].id == id then ts[i].(is_completed := completed, completed_at := if completed then Some(now) else None)
      else ts[i])
  }

  /** `tasks.filter(t => t.id !== id)`. */
  function WithoutTask(ts: seq<ApplicationTask>, id: string): (r: seq<ApplicationTask>)
    ensures forall i :: 0 <= i < |r| ==> r[i].id != id && r[i] in ts
    ensures forall i :: 0 <= i < |ts| && ts[i].id != id ==> ts[i] in r
    ensures IsSubsequence(r, ts)
  {
    FilterIsSubsequence((t: ApplicationTask) => t.id != id, ts);
    Filter((t: ApplicationTask) => t.id != id, ts)
  }

  predicate UniqueIds(ts: seq<ApplicationTask>) {
    forall i, j :: 0 <= i < j < |ts| ==> ts[i].id != ts[j].id
  }

  /** After the update, the first task with that id has the new state. */
  lemma FindAfterSetCompletion(ts: seq<ApplicationTask>, id: string, completed: bool, now: string)
    requires FindTask(ts, id).Some?
    ensures FindTask(SetCompletion(ts, id, completed, now), id).Some?
    ensures FindTask(SetCompletion(ts, id, completed, now), id).value.is_completed == completed
  {
    var t1 := SetCompletion(ts, id, completed, now);
    var k :| 0 <= k < |ts| && ts[k].id == id;
    assert t1[k].id == id;
  }

  /** With distinct ids, toggling a task twice gives every task its original
      completion state back (only the timestamp differs). */
  lemma ToggleTwiceRestores(ts: seq<ApplicationTask>, id: string, now1: string, now2: string)
    requires UniqueIds(ts)
    requires FindTask(ts, id).Some?
    ensures var t1 := SetCompletion(ts, id, !FindTask(ts, id).value.is_completed, now1);
      FindTask(t1, id).Some?
      && var t2 := SetCompletion(t1, id, !FindTask(t1, id).value.is_completed, now2);
      forall i :: 0 <= i < |ts| ==> t2[i].is_completed == ts[i].is_completed && t2[i].id == ts[i].id
  {
    var c := FindTask(ts, id).value;
    var t1 := SetCompletion(ts, id, !c.is_completed, now1);
    FindAfterSetCompletion(ts, id, !c.is_completed, now1);
    var t2 := SetCompletion(t1, id, !FindTask(t1, id).value.is_completed, now2);
    forall i | 0 <= i < |ts|
      ensures t2[i].is_completed == ts[i].is_completed && t2[i].id == ts[i].id
    {
      if ts[i].id == id {
        var k :| 0 <= k < |ts| && ts[k] == c && ts[k].id == id;
        assert k == i;
      }
    }
  }

  // --------------------------------------------------------------- grouping

  /** The tasks of one category, in list order. */
  function InCategory(ts: seq<ApplicationTask>, c: string): (r: seq<ApplicationTask>)
    ensures |r| <= |ts|
    ensures forall i :: 0 <= i < |r| ==> r[i].category == c && r[i] in ts
    decreases |ts|
  {
    if ts == [] then []
    else
      var t := ts[|ts| - 1];
      InCategory(ts[..|ts| - 1], c) + (if t.category == c then [t] else [])
  }

  lemma {:induction false} InCategoryEmptyIff(ts: seq<ApplicationTask>, c: string)
    ensures InCategory(ts, c) == [] <==> forall i :: 0 <= i < |ts| ==> ts[i].category != c
    decreases |ts|
  {
    if ts != [] {
      InCategoryEmptyIff(ts[..|ts| - 1], c);
      assert forall i :: 0 <= i < |ts| - 1 ==> ts[..|ts| - 1][i] == ts[i];
    }
  }

  /** `tasksByCategory`: one pass that creates a category's group the first time the
      category is met and appends each task to its group. */
  method GroupByCategory(ts: seq<ApplicationTask>) returns (groups: map<string, seq<ApplicationTask>>)
    ensures forall c :: c in groups <==> exists i :: 0 <= i < |ts| && ts[i].category == c
    ensures forall c :: c in groups ==> groups[c] == InCategory(ts, c)
  {
    groups := map[];
    for i := 0 to |ts|
      invariant forall c :: c in groups <==> exists j :: 0 <= j < i && ts[j].category == c
      invariant forall c :: c in groups ==> groups[c] == InCategory(ts[..i], c)
    {
      var task := ts[i];
      assert ts[..i + 1][..i] == ts[..i] && ts[..i + 1][i] == task;
      if task.category !in groups {
        InCategoryEmptyIff(ts[..i], task.category);
        groups := groups[task.category := []];
      }
      groups := groups[task.category := groups[task.category] + [task]];
    }
    assert ts[..|ts|] == ts;
  }

  /** How often `c` occurs in `cats`. */
  function Occurrences(cats: seq<string>, c: string): nat {
    if cats == [] then 0 else (if cats[0] == c then 1 else 0) + Occurrences(cats[1..], c)
  }

  /** The sizes of the groups named by `cats`, added up. */
  function GroupSizes(ts: seq<ApplicationTask>, cats: seq<string>): nat {
    if cats == [] then 0 else |InCategory(ts, cats[0])| + GroupSizes(ts, cats[1..])
  }

  lemma {:induction false} GroupSizesSnoc(ts: seq<ApplicationTask>, t: ApplicationTask, cats: seq<string>)
    ensures GroupSizes(ts + [t], cats) == GroupSizes(ts, cats) + Occurrences(cats, t.category)
    decreases |cats|
  {
    assert (ts + [t])[..|ts|] == ts;
    if cats != [] {
      GroupSizesSnoc(ts, t, cats[1..]);
    }
  }

  /** When every task has one of the five categories, the five groups together hold
      every task exactly once. */
  lemma {:induction false} GroupsPartitionTasks(ts: seq<ApplicationTask>)
    requires forall i :: 0 <= i < |ts| ==> ts[i].category in CATEGORY_ORDER
    ensures GroupSizes(ts, CATEGORY_ORDER) == |ts|
    decreases |ts|
  {
    if ts != [] {
      var init, t := ts[..|ts| - 1], ts[|ts| - 1];
      assert ts == init + [t];
      GroupsPartitionTasks(init);
      GroupSizesSnoc(init, t, CATEGORY_ORDER);
      assert Occurrences(CATEGORY_ORDER, t.category) == 1;
    }
  }

  // --------------------------------------------------------------- counters

  /** `completedCount`. */
  function CompletedCount(ts: seq<ApplicationTask>): (n: nat)
    ensures n <= |ts|
    ensures n == |ts| <==> forall i :: 0 <= i < |ts| ==> ts[i].is_completed
  {
    var done := Filter((t: ApplicationTask) => t.is_completed, ts);
    FilterKeepsAllIff((t: ApplicationTask) => t.is_completed, ts);
    |done|
  }

  /** The "c of n completed" line the dashboard card and each task-list section show. */
  function CompletionLine(ts: seq<ApplicationTask>): (r: (nat, nat))
    ensures r.1 == |ts| && r.0 <= r.1
    ensures r.0 == r.1 <==> forall i :: 0 <= i < |ts| ==> ts[i].is_completed
  {
    (CompletedCount(ts), |ts|)
  }

  /** `progressPercentage`: 0 for no tasks, else the rounded share completed. */
  function ProgressPercentage(ts: seq<ApplicationTask>): (pct: int)
    ensures 0 <= pct <= 100
    ensures |ts| == 0 ==> pct == 0
    ensures |ts| > 0 ==> pct == RoundDiv(100 * CompletedCount(ts), |ts|)
    ensures CompletedCount(ts) == |ts| && |ts| > 0 ==> pct == 100
    ensures CompletedCount(ts) == 0 ==> pct == 0
  {
    if |ts| > 0 then
      RoundDivBounds(100 * CompletedCount(ts), |ts|);
      RoundDivOfMultiple(100, |ts|);
      RoundDiv(100 * CompletedCount(ts), |ts|)
    else 0
  }

  // ------------------------------------------------------------ hook state

  /** What the generate-tasks endpoint answered. */
  datatype TasksReply =
    | Failed(status: int)
    | Unreachable
    | Answered(regenerateFlag: Option<bool>)

  /** The toast a generation shows. */
  datatype Notice = NoNotice | RateLimitNotice | CreditsNotice | ErrorNotice | AlreadyGenerated | TasksGenerated | TasksRegenerated

  /** The notice for a request that reached the endpoint. */
  function NoticeFor(regenerate: bool, reply: TasksReply): (n: Notice)
    ensures n == RateLimitNotice <==> reply == Failed(429)
    ensures n == CreditsNotice <==> reply == Failed(402)
    ensures n == AlreadyGenerated <==> reply == Answered(Some(false)) && !regenerate
    ensures n == TasksRegenerated <==> reply.Answered? && regenerate
  {
    match reply
    case Failed(status) =>
      if status == RATE_LIMITED then RateLimitNotice
      else if status == CREDITS_EXHAUSTED then CreditsNotice
      else ErrorNotice
    case Unreachable => ErrorNotice
    case Answered(flag) =>
      if flag == Some(false) && !regenerate then AlreadyGenerated
      else if regenerate then TasksRegenerated
      else TasksGenerated
  }

  class ApplicationTasksHook {
    var tasks: seq<ApplicationTask>
    var isLoading: bool
    var isGenerating: bool

    constructor ()
      ensures tasks == [] && isLoading && !isGenerating
    {
      tasks := [];
      isLoading := true;
      isGenerating := false;
    }

    /** `fetchTasks`: the user's rows (already in sort_order) replace the list when the
        query succeeds; loading ends on every path, the early return without a user
        included, since it leaves through the `finally` block. */
    method FetchTasks(hasUser: bool, rows: Option<seq<ApplicationTask>>)
      modifies this`tasks, this`isLoading
      ensures tasks == if hasUser && rows.Some? then rows.value else old(tasks)
      ensures !isLoading
    {
      if !hasUser {
        isLoading := false;
        return;
      }
      if rows.Some? {
        tasks := rows.value;
      }
      isLoading := false;
    }

    /** `generateTasks`: nothing happens while a generation runs; without a session or
        on any failure the list is not refetched; an answer shows "already generated"
        or "generated"/"regenerated" and refetches. The flag is cleared on every path
        that started. */
    method GenerateTasks(regenerate: bool, hasSession: bool, reply: TasksReply,
                         hasUser: bool, rows: Option<seq<ApplicationTask>>) returns (notice: Notice)
      modifies this
      ensures old(isGenerating) ==> (notice == NoNotice && tasks == old(tasks)
        && isGenerating && isLoading == old(isLoading))
      ensures !old(isGenerating) ==> !isGenerating
      ensures !old(isGenerating) && !hasSession ==> notice == ErrorNotice && tasks == old(tasks)
      ensures !old(isGenerating) && hasSession ==> notice == NoticeFor(regenerate, reply)
      ensures !old(isGenerating) && hasSession && reply.Answered? ==>
        tasks == (if hasUser && rows.Some? then rows.value else old(tasks)) && !isLoading
      ensures !(hasSession && reply.Answered?) ==> tasks == old(tasks) && isLoading == old(isLoading)
    {
      if isGenerating {
        return NoNotice;
      }
      isGenerating := true;
      if !hasSession {
        notice := ErrorNotice;
      } else {
        notice := NoticeFor(regenerate, reply);
        if reply.Answered? {
          FetchTasks(hasUser, rows);
        }
      }
      isGenerating := false;
    }

    /** `toggleTaskCompletion`: for a task that is present and a successful update, every
        task with that id takes the opposite of the found task's state; otherwise
        nothing changes. */
    method ToggleTaskCompletion(taskId: string, updateOk: bool, now: string)
      modifies this`tasks
      ensures FindTask(old(tasks), taskId).None? || !updateOk ==> tasks == old(tasks)
      ensures FindTask(old(tasks), taskId).Some? && updateOk ==>
        tasks == SetCompletion(old(tasks), taskId, !FindTask(old(tasks), taskId).value.is_completed, now)
    {
      var task := FindTask(tasks, taskId);
      if task.None? {
        return;
      }
      var newCompleted := !task.value.is_completed;
      if !updateOk {
        return;
      }
      tasks := SetCompletion(tasks, taskId, newCompleted, now);
    }

    /** `deleteTask`: a successful delete drops exactly the tasks with that id. */
    method DeleteTask(taskId: string, deleteOk: bool)
      modifies this`tasks
      ensures tasks == if deleteOk then WithoutTask(old(tasks), taskId) else old(tasks)
    {
      if deleteOk {
        tasks := WithoutTask(tasks, taskId);
      }
    }
  }
}
