/** The task-generation endpoint: a sequence of gates over the caller and the stored
    rows, an optional delete of the caller's old tasks, one language-model call, and
    the insert of the generated tasks as rows. */
module GenerateTasks {
  import opened JsValues
  import opened Domain
  import opened Seqs
  import Text

  // ------------------------------------------------------------------ rows

  /** A task as the model's `create_tasks` tool call describes it. */
  datatype GeneratedTask = GeneratedTask(
    title: string, description: string, category: string, priority: string, due_date: Option<string>)

  /** A stored `application_tasks` row, as far as the endpoint reads or writes it. */
  datatype TaskRow = TaskRow(
    user_id: string, university_id: Option<string>, title: string, description: string,
    category: string, priority: string, due_date: Option<string>, is_ai_generated: bool, sort_order: int)

  /** `tasksToInsert`: one row per generated task, in the model's order, owned by the
      caller, tied to no university, marked generated; an empty due date is stored as
      null. */
  function TasksToInsert(userId: string, tasks: seq<GeneratedTask>): (rows: seq<TaskRow>)
    ensures |rows| == |tasks|
    ensures forall i :: 0 <= i < |rows| ==>
      rows[i].user_id == userId && rows[i].university_id.None? && rows[i].is_ai_generated && rows[i].sort_order == i
    ensures forall i :: 0 <= i < |rows| ==>
      rows[i].due_date == (if TruthyText(tasks[i].due_date) then tasks[i].due_date else None)
  {
    seq(|tasks|, i requires 0 <= i < |tasks| =>
      var t := tasks[i];
      TaskRow(userId, None, t.title, t.description, t.category, t.priority,
              if TruthyText(t.due_date) then t.due_date else None, true, i))
  }

  /** The task a stored row describes. */
  function TaskOfRow(r: TaskRow): GeneratedTask {
    GeneratedTask(r.title, r.description, r.category, r.priority, r.due_date)
  }

  /** Reading the inserted rows back gives the generated tasks in their order, with an
      empty due date read as none; sort orders increase strictly along the rows. */
  lemma InsertedRowsGiveBackTasks(userId: string, tasks: seq<GeneratedTask>)
    ensures var rows := TasksToInsert(userId, tasks);
      forall i :: 0 <= i < |rows| ==>
        TaskOfRow(rows[i]) == (if tasks[i].due_date == Some("") then tasks[i].(due_date := None) else tasks[i])
    ensures var rows := TasksToInsert(userId, tasks);
      forall i, j :: 0 <= i < j < |rows| ==> rows[i].sort_order < rows[j].sort_order
  {
  }

  /** The rows a user owns, in stored order. */
  function OwnedBy(userId: string): TaskRow -> bool {
    (r: TaskRow) => r.user_id == userId
  }

  function NotOwnedBy(userId: string): TaskRow -> bool {
    (r: TaskRow) => r.user_id != userId
  }

  function OwnRows(userId: string, rows: seq<TaskRow>): seq<TaskRow> {
    Filter(OwnedBy(userId), rows)
  }

  /** The table after `delete().eq("user_id", …)`. */
  function WithoutRowsOf(userId: string, rows: seq<TaskRow>): seq<TaskRow> {
    Filter(NotOwnedBy(userId), rows)
  }

  /** The date shown for the target intake: "term year" when both are set, otherwise
      "Not specified". A year of 0 counts as unset. */
  function IntakeDate(profile: Option<Profile>, ofInt: int -> string): string {
    if profile.Some? && TruthyText(profile.value.goals.target_intake_term)
       && TruthyInt(profile.value.goals.target_intake_year)
    then profile.value.goals.target_intake_term.value + " " + ofInt(profile.value.goals.target_intake_year.value)
    else "Not specified"
  }

  /** The intake date names the term and the year exactly when both are set. */
  lemma IntakeDateNeedsBoth(profile: Option<Profile>, ofInt: int -> string)
    ensures (profile.None? || !TruthyText(profile.value.goals.target_intake_term)
             || !TruthyInt(profile.value.goals.target_intake_year)) ==> IntakeDate(profile, ofInt) == "Not specified"
    ensures profile.Some? && TruthyText(profile.value.goals.target_intake_term)
            && TruthyInt(profile.value.goals.target_intake_year) ==>
      var d, term := IntakeDate(profile, ofInt), profile.value.goals.target_intake_term.value;
      Text.StartsWith(d, term + " ") && Text.EndsWith(d, ofInt(profile.value.goals.target_intake_year.value))
  {
    if profile.Some? && TruthyText(profile.value.goals.target_intake_term)
       && TruthyInt(profile.value.goals.target_intake_year) {
      var term, year := profile.value.goals.target_intake_term.value, ofInt(profile.value.goals.target_intake_year.value);
      var d := IntakeDate(profile, ofInt);
      assert d == (term + " ") + year;
      assert d[..|term + " "|] == term + " ";
      assert d[|d| - |year|..] == year;
    }
  }

  // ------------------------------------------------------------------ request

  /** The value of `body.regenerate`, when the body parses and has the field. */
  datatype JsonValue = JsTrue | JsFalse | JsOther

  datatype Request = Request(preflight: bool, authorization: Option<string>, regenerateField: Option<JsonValue>)

  /** `body?.regenerate === true`: only the boolean true asks for regeneration. */
  predicate Regenerate(req: Request) {
    req.regenerateField == Some(JsTrue)
  }

  datatype ToolCall = ToolCall(name: string, arguments: string)

  /** The gateway's reply: its status and, when it answered, the first tool call. */
  datatype GatewayReply = GatewayReply(status: int, toolCall: Option<ToolCall>)

  /** What the handler's calls return: the user the header resolves to (none on an
      error), the caller's locked universities (null on an error), whether the
      existing-task query, the delete and the insert succeed, the gateway key and
      reply, and `JSON.parse(arguments).tasks` as a partial function. */
  datatype Services = Services(
    user: Option<string>,
    lockedUniversities: Option<seq<University>>,
    existingQueryOk: bool,
    deleteOk: bool,
    apiKey: Option<string>,
    gateway: GatewayReply,
    parseTasks: string -> Option<seq<GeneratedTask>>,
    insertOk: bool)

  datatype FailureReason = MissingApiKey | GatewayError | InvalidFormat | UnparseableArguments | InsertFailed

  datatype Outcome =
    | Preflight
    | MissingAuthorization
    | Unauthorized
    | NoLockedUniversities
    | AlreadyGenerated
    | RegenerateFailed
    | RateLimited
    | CreditsExhausted
    | Failure(reason: FailureReason)
    | Generated(count: nat)

  datatype Response = Response(status: int, outcome: Outcome)

  function StatusOf(o: Outcome): int {
    match o
    case Preflight => 200
    case MissingAuthorization => 401
    case Unauthorized => 401
    case NoLockedUniversities => 400
    case AlreadyGenerated => 200
    case RegenerateFailed => 500
    case RateLimited => RATE_LIMITED
    case CreditsExhausted => CREDITS_EXHAUSTED
    case Failure(_) => 500
    case Generated(_) => 200
  }

  /** The error text of a failing response; the text of a parse error comes from the
      parser and is not modelled. */
  function ErrorText(o: Outcome): Option<string> {
    match o
    case MissingAuthorization => Some("Authorization header required")
    case Unauthorized => Some("Unauthorized")
    case NoLockedUniversities => Some("No locked universities found. Lock at least one university first.")
    case RegenerateFailed => Some("Failed to regenerate tasks")
    case RateLimited => Some("Rate limit exceeded. Please try again later.")
    case CreditsExhausted => Some("AI credits exhausted. Please add more credits.")
    case Failure(MissingApiKey) => Some("LOVABLE_API_KEY is not configured")
    case Failure(GatewayError) => Some("Failed to generate tasks")
    case Failure(InvalidFormat) => Some("Invalid AI response format")
    case Failure(InsertFailed) => Some("Failed to save tasks")
    case _ => None
  }

  /** The outcome of a gateway reply that is not OK. */
  function GatewayFailure(status: int): Outcome {
    if status == RATE_LIMITED then RateLimited
    else if status == CREDITS_EXHAUSTED then CreditsExhausted
    else Failure(GatewayError)
  }

  /** The response status is 429 or 402 exactly for those gateway statuses; every other
      failing gateway status becomes 500. */
  lemma GatewayStatusMapping(status: int)
    ensures StatusOf(GatewayFailure(status)) == if status == 429 || status == 402 then status else 500
    ensures forall o :: StatusOf(o) == 429 <==> o == RateLimited
    ensures forall o :: StatusOf(o) == 402 <==> o == CreditsExhausted
  {
  }

  predicate GatewayOk(g: GatewayReply) {
    200 <= g.status < 300
  }

  /** The caller has tasks: the `limit(1)` query succeeded and found one of theirs. */
  predicate HasExisting(env: Services, userId: string, rows: seq<TaskRow>) {
    env.existingQueryOk && OwnRows(userId, rows) != []
  }

  /** The gates before the model is called, none of which writes anything: the
      outcome they stop at, or none when the request goes on. */
  function Gate(req: Request, env: Services, rows: seq<TaskRow>): (r: Option<Outcome>)
    ensures r.None? ==> (!req.preflight && TruthyText(req.authorization) && env.user.Some?
      && NonEmptyList(env.lockedUniversities)
      && (HasExisting(env, env.user.value, rows) ==> Regenerate(req) && env.deleteOk))
    ensures r.Some? ==> r.value !in {RateLimited, CreditsExhausted} && !r.value.Failure? && !r.value.Generated?
  {
    if req.preflight then Some(Preflight)
    else if !TruthyText(req.authorization) then Some(MissingAuthorization)
    else if env.user.None? then Some(Unauthorized)
    else if !NonEmptyList(env.lockedUniversities) then Some(NoLockedUniversities)
    else if HasExisting(env, env.user.value, rows) && !Regenerate(req) then Some(AlreadyGenerated)
    else if HasExisting(env, env.user.value, rows) && !env.deleteOk then Some(RegenerateFailed)
    else None
  }

  datatype AiResult = AiFailed(outcome: Outcome) | AiTasks(tasks: seq<GeneratedTask>)

  /** The model call: the key must be set, the gateway must answer OK with a
      `create_tasks` tool call, and its arguments must parse. */
  function CallModel(env: Services): AiResult {
    if !TruthyText(env.apiKey) then AiFailed(Failure(MissingApiKey))
    else if !GatewayOk(env.gateway) then AiFailed(GatewayFailure(env.gateway.status))
    else if env.gateway.toolCall.None? || env.gateway.toolCall.value.name != "create_tasks" then AiFailed(Failure(InvalidFormat))
    else
      match env.parseTasks(env.gateway.toolCall.value.arguments)
      case None => AiFailed(Failure(UnparseableArguments))
      case Some(tasks) => AiTasks(tasks)
  }

  /** The handler's outcome. */
  function HandlerOutcome(req: Request, env: Services, rows: seq<TaskRow>): Outcome {
    match Gate(req, env, rows)
    case Some(o) => o
    case None =>
      match CallModel(env)
      case AiFailed(o) => o
      case AiTasks(tasks) => if env.insertOk then Generated(|tasks|) else Failure(InsertFailed)
  }

  /** The table after the handler: unchanged when a gate stops the request; otherwise
      the caller's old tasks are gone if there were any, and the new rows are appended
      if the model answered and the insert succeeded. */
  function RowsAfter(req: Request, env: Services, rows: seq<TaskRow>): seq<TaskRow> {
    if Gate(req, env, rows).Some? then rows
    else
      var userId := env.user.value;
      var kept := if HasExisting(env, userId, rows) then WithoutRowsOf(userId, rows) else rows;
      match CallModel(env)
      case AiTasks(tasks) => if env.insertOk then kept + TasksToInsert(userId, tasks) else kept
      case AiFailed(_) => kept
  }

  // ------------------------------------------------------------------ gating lemmas

  /** Without an authorization header or a user it resolves to, the answer is 401 and
      nothing is read or written. */
  lemma AuthorizationComesFirst(req: Request, env: Services, rows: seq<TaskRow>)
    requires !req.preflight && (!TruthyText(req.authorization) || env.user.None?)
    ensures StatusOf(HandlerOutcome(req, env, rows)) == 401
    ensures RowsAfter(req, env, rows) == rows
  {
  }

  /** Without a locked university the answer is 400 and no task is deleted or
      inserted. */
  lemma NoLockedUniversitiesNoChange(req: Request, env: Services, rows: seq<TaskRow>)
    requires !req.preflight && TruthyText(req.authorization) && env.user.Some?
    requires !NonEmptyList(env.lockedUniversities)
    ensures HandlerOutcome(req, env, rows) == NoLockedUniversities
    ensures StatusOf(HandlerOutcome(req, env, rows)) == 400
    ensures RowsAfter(req, env, rows) == rows
  {
  }

  /** Existing tasks without `regenerate: true` (a string "true" included) answer 200
      "already generated" and change nothing; with it, a failed delete answers 500 and
      inserts nothing. */
  lemma ExistingTasksGate(req: Request, env: Services, rows: seq<TaskRow>)
    requires !req.preflight && TruthyText(req.authorization) && env.user.Some?
    requires NonEmptyList(env.lockedUniversities) && HasExisting(env, env.user.value, rows)
    ensures !Regenerate(req) ==> (HandlerOutcome(req, env, rows) == AlreadyGenerated
            && StatusOf(AlreadyGenerated) == 200 && RowsAfter(req, env, rows) == rows)
    ensures Regenerate(req) && !env.deleteOk ==> (HandlerOutcome(req, env, rows) == RegenerateFailed
            && StatusOf(RegenerateFailed) == 500 && RowsAfter(req, env, rows) == rows)
    ensures req.regenerateField == Some(JsOther) ==> HandlerOutcome(req, env, rows) == AlreadyGenerated
  {
  }

  /** Removing a user's rows removes all of them and keeps every other user's. */
  lemma WithoutRowsOfExactly(userId: string, other: string, rows: seq<TaskRow>)
    ensures OwnRows(userId, WithoutRowsOf(userId, rows)) == []
    ensures other != userId ==> OwnRows(other, WithoutRowsOf(userId, rows)) == OwnRows(other, rows)
  {
    var kept := WithoutRowsOf(userId, rows);
    FilterNone(OwnedBy(userId), kept);
    if other != userId {
      FilterAfterWeaker(OwnedBy(other), NotOwnedBy(userId), rows);
    }
  }

  /** Appending rows owned by one user adds them to that user's rows, in order, and to
      no one else's. */
  lemma AppendOwnedRows(userId: string, other: string, rows: seq<TaskRow>, added: seq<TaskRow>)
    requires forall i :: 0 <= i < |added| ==> added[i].user_id == userId
    ensures OwnRows(userId, rows + added) == OwnRows(userId, rows) + added
    ensures other != userId ==> OwnRows(other, rows + added) == OwnRows(other, rows)
  {
    FilterAppend(OwnedBy(userId), rows, added);
    FilterAll(OwnedBy(userId), added);
    if other != userId {
      FilterAppend(OwnedBy(other), rows, added);
      FilterNone(OwnedBy(other), added);
    }
  }

  /** The handler never touches another user's tasks. */
  lemma OtherUsersUntouched(req: Request, env: Services, rows: seq<TaskRow>, other: string)
    requires env.user != Some(other)
    ensures OwnRows(other, RowsAfter(req, env, rows)) == OwnRows(other, rows)
  {
    if Gate(req, env, rows).None? {
      var userId := env.user.value;
      var kept := if HasExisting(env, userId, rows) then WithoutRowsOf(userId, rows) else rows;
      if HasExisting(env, userId, rows) {
        WithoutRowsOfExactly(userId, other, rows);
      }
      if CallModel(env).AiTasks? && env.insertOk {
        AppendOwnedRows(userId, other, kept, TasksToInsert(userId, CallModel(env).tasks));
      }
    }
  }

  /** Past the gates, the caller's tasks become: none if they had some (regeneration),
      else their old ones; followed by the generated rows when the run succeeds, whose
      number the response reports. */
  lemma CallerTasksAfterGates(req: Request, env: Services, rows: seq<TaskRow>)
    requires Gate(req, env, rows).None?
    ensures var userId := env.user.value;
      var before := if HasExisting(env, userId, rows) then [] else OwnRows(userId, rows);
      var o := HandlerOutcome(req, env, rows);
      (o.Generated? ==> (CallModel(env).AiTasks? && o.count == |CallModel(env).tasks|
        && OwnRows(userId, RowsAfter(req, env, rows)) == before + TasksToInsert(userId, CallModel(env).tasks)))
      && (!o.Generated? ==> OwnRows(userId, RowsAfter(req, env, rows)) == before)
  {
    var userId := env.user.value;
    var kept := if HasExisting(env, userId, rows) then WithoutRowsOf(userId, rows) else rows;
    var before := if HasExisting(env, userId, rows) then [] else OwnRows(userId, rows);
    if HasExisting(env, userId, rows) {
      WithoutRowsOfExactly(userId, userId, rows);
    }
    assert OwnRows(userId, kept) == before;
    if CallModel(env).AiTasks? && env.insertOk {
      AppendOwnedRows(userId, userId, kept, TasksToInsert(userId, CallModel(env).tasks));
    }
  }

  /** Regeneration deletes before the model is called, so a regeneration whose model
      call or insert fails (a 429 or 402 included) leaves the caller with no tasks. */
  lemma FailedRegenerationLosesTasks(req: Request, env: Services, rows: seq<TaskRow>)
    requires Gate(req, env, rows).None? && HasExisting(env, env.user.value, rows)
    requires !HandlerOutcome(req, env, rows).Generated?
    ensures OwnRows(env.user.value, RowsAfter(req, env, rows)) == []
    ensures StatusOf(HandlerOutcome(req, env, rows)) in {429, 402, 500}
  {
    CallerTasksAfterGates(req, env, rows);
  }

  // ------------------------------------------------------------------ handler

  /** The `application_tasks` table. */
  class TaskTable {
    var rows: seq<TaskRow>

    constructor (rows0: seq<TaskRow>)
      ensures rows == rows0
    {
      rows := rows0;
    }

    method DeleteRowsOf(userId: string)
      modifies this
      ensures rows == WithoutRowsOf(userId, old(rows))
    {
      rows := WithoutRowsOf(userId, rows);
    }

    method Insert(added: seq<TaskRow>)
      modifies this
      ensures rows == old(rows) + added
    {
      rows := rows + added;
    }
  }

  /** The request handler, step by step with early returns. */
  method Handle(table: TaskTable, req: Request, env: Services) returns (resp: Response)
    modifies table
    ensures resp.outcome == HandlerOutcome(req, env, old(table.rows))
    ensures resp.status == StatusOf(resp.outcome)
    ensures table.rows == RowsAfter(req, env, old(table.rows))
  {
    if req.preflight {
      return Response(StatusOf(Preflight), Preflight);
    }
    if !TruthyText(req.authorization) {
      return Response(StatusOf(MissingAuthorization), MissingAuthorization);
    }
    if env.user.None? {
      return Response(StatusOf(Unauthorized), Unauthorized);
    }
    var userId := env.user.value;
    if !NonEmptyList(env.lockedUniversities) {
      return Response(StatusOf(NoLockedUniversities), NoLockedUniversities);
    }
    var regenerate := req.regenerateField == Some(JsTrue);
    var existing := env.existingQueryOk && OwnRows(userId, table.rows) != [];
    if existing && !regenerate {
      return Response(StatusOf(AlreadyGenerated), AlreadyGenerated);
    }
    if existing && regenerate {
      if !env.deleteOk {
        return Response(StatusOf(RegenerateFailed), RegenerateFailed);
      }
      table.DeleteRowsOf(userId);
    }
    if !TruthyText(env.apiKey) {
      return Response(500, Failure(MissingApiKey));
    }
    if !GatewayOk(env.gateway) {
      var o := GatewayFailure(env.gateway.status);
      return Response(StatusOf(o), o);
    }
    var toolCall := env.gateway.toolCall;
    if toolCall.None? || toolCall.value.name != "create_tasks" {
      return Response(500, Failure(InvalidFormat));
    }
    var parsed := env.parseTasks(toolCall.value.arguments);
    if parsed.None? {
      return Response(500, Failure(UnparseableArguments));
    }
    var tasksToInsert := TasksToInsert(userId, parsed.value);
    if !env.insertOk {
      return Response(500, Failure(InsertFailed));
    }
    table.Insert(tasksToInsert);
    return Response(200, Generated(|tasksToInsert|));
  }
}
