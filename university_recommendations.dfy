/** The recommendations endpoint: the request is checked, one language-model call is
    made, and its text answer is cleaned of Markdown code fences and parsed as the list
    of universities. */
module UniversityRecommendations {
  import opened JsValues
  import opened Domain
  import opened Text
  import UniversitiesPage
  import UniversitiesHook

  // ------------------------------------------------------------------ cleanup

  const FENCE := "```"
  const JSON_FENCE := "```json"

  /** The answer with a leading "```json" removed. */
  function DropJsonFence(s: string): string {
    if StartsWith(s, JSON_FENCE) then s[|JSON_FENCE|..] else s
  }

  /** The answer with a leading "```" removed. */
  function DropOpeningFence(s: string): string {
    if StartsWith(s, FENCE) then s[|FENCE|..] else s
  }

  /** The answer with a trailing "```" removed. */
  function DropClosingFence(s: string): string {
    if EndsWith(s, FENCE) then s[..|s| - |FENCE|] else s
  }

  /** `cleanContent`: trim, drop the fences, trim again. */
  function Cleaned(content: string): string {
    Trim(DropClosingFence(DropOpeningFence(DropJsonFence(Trim(content)))))
  }

  /** The cleanup, one reassignment per step. */
  method CleanContent(content: string) returns (clean: string)
    ensures clean == Cleaned(content)
  {
    clean := Trim(content);
    ghost var trimmed := clean;
    if StartsWith(clean, JSON_FENCE) {
      clean := clean[7..];
    }
    assert clean == DropJsonFence(trimmed);
    ghost var afterJson := clean;
    if StartsWith(clean, FENCE) {
      clean := clean[3..];
    }
    assert clean == DropOpeningFence(afterJson);
    ghost var afterOpening := clean;
    if EndsWith(clean, FENCE) {
      clean := clean[..|clean| - 3];
    }
    assert clean == DropClosingFence(afterOpening);
    clean := Trim(clean);
  }

  /** The cleaned text never starts or ends with white space, and cleaning it again
      trims nothing more off. */
  lemma CleanedHasNoEdgeSpace(content: string)
    ensures var c := Cleaned(content); c == [] || (!IsSpace(c[0]) && !IsSpace(c[|c| - 1]))
    ensures Trim(Cleaned(content)) == Cleaned(content)
  {
    var inner := DropClosingFence(DropOpeningFence(DropJsonFence(Trim(content))));
    TrimSpec(inner);
    TrimIdempotent(inner);
  }

  /** A "```json" fence is also a "```" fence. */
  lemma JsonFenceIsFence(s: string)
    ensures StartsWith(s, JSON_FENCE) ==> StartsWith(s, FENCE)
  {
    if StartsWith(s, JSON_FENCE) {
      assert s[..3] == s[..7][..3];
    }
  }

  /** An answer whose trimmed text neither starts nor ends with a fence is only
      trimmed. */
  lemma UnfencedIsOnlyTrimmed(content: string)
    requires !StartsWith(Trim(content), FENCE) && !EndsWith(Trim(content), FENCE)
    ensures Cleaned(content) == Trim(content)
  {
    var t := Trim(content);
    JsonFenceIsFence(t);
    assert DropJsonFence(t) == t;
    assert DropOpeningFence(t) == t;
    assert DropClosingFence(t) == t;
    TrimIdempotent(content);
  }

  /** Padding a string with no white space at either end by one line break on each
      side and trimming gives it back. */
  lemma TrimLinePadded(j: string)
    requires j == [] || (!IsSpace(j[0]) && !IsSpace(j[|j| - 1]))
    ensures Trim("\n" + j + "\n") == j
  {
    var s := "\n" + j + "\n";
    assert s[1..] == j + "\n";
    assert TrimStart(s) == TrimStart(j + "\n");
    if j == [] {
      assert (j + "\n")[1..] == [];
    } else {
      assert TrimStart(j + "\n") == j + "\n";
      assert (j + "\n")[..|j + "\n"| - 1] == j;
      assert TrimEnd(j + "\n") == TrimEnd(j);
      assert TrimEnd(j) == j;
    }
  }

  /** The fences around a fenced block come off, leaving the line-padded payload. */
  lemma FencesComeOff(j: string, tagged: bool)
    ensures var open := if tagged then JSON_FENCE else FENCE;
      DropClosingFence(DropOpeningFence(DropJsonFence(open + "\n" + j + "\n" + FENCE))) == "\n" + j + "\n"
  {
    var open := if tagged then JSON_FENCE else FENCE;
    var body := "\n" + j + "\n";
    var content := open + "\n" + j + "\n" + FENCE;
    assert content == open + (body + FENCE);
    var rest := body + FENCE;
    if tagged {
      assert content[..7] == JSON_FENCE;
      assert content[7..] == rest;
      assert DropJsonFence(content) == rest;
    } else {
      assert content[3] == '\n';
      assert content[..7][3] == '\n';
      assert DropJsonFence(content) == content;
      assert content[..3] == FENCE;
      assert content[3..] == rest;
      assert DropOpeningFence(content) == rest;
    }
    assert rest[0] == '\n';
    assert rest[..3][0] == '\n';
    assert DropOpeningFence(rest) == rest;
    assert rest[|rest| - 3..] == FENCE;
    assert rest[..|rest| - 3] == body;
  }

  /** A text between backticks has no white space to trim, so its cleanup starts at
      the fences. */
  lemma FencedBlockIsTrimmed(content: string)
    requires |content| > 0 && content[0] == '`' && content[|content| - 1] == '`'
    ensures Cleaned(content) == Trim(DropClosingFence(DropOpeningFence(DropJsonFence(content))))
  {
    TrimOfTrimmed(content);
  }

  /** A payload the model wraps in a fenced block, tagged "json" or not, is recovered
      exactly, provided it has no white space at either end. */
  lemma FencedPayloadRecovered(j: string, tagged: bool)
    requires j == [] || (!IsSpace(j[0]) && !IsSpace(j[|j| - 1]))
    ensures Cleaned((if tagged then JSON_FENCE else FENCE) + "\n" + j + "\n" + FENCE) == j
  {
    var content := (if tagged then JSON_FENCE else FENCE) + "\n" + j + "\n" + FENCE;
    FencedBlockIsTrimmed(content);
    FencesComeOff(j, tagged);
    TrimLinePadded(j);
  }

  // ------------------------------------------------------------------ prompt filters

  /** The two filter lines of the prompt; each is empty unless its filter is set. */
  function FilterLines(filters: Option<UniversitiesPage.Filters>): (string, string) {
    var country := if filters.Some? && TruthyText(filters.value.country)
      then "## Filter Applied: Focus on " + filters.value.country.value else "";
    var category := if filters.Some? && TruthyText(filters.value.category)
      then "## Category Filter: Only show " + filters.value.category.value + " universities" else "";
    (country, category)
  }

  /** A filter line appears exactly when its filter is set to a non-empty value, and
      then it names that value; no other filter reaches the prompt. */
  lemma FilterLinesOnlyWhenSet(filters: Option<UniversitiesPage.Filters>)
    ensures FilterLines(filters).0 != "" <==> filters.Some? && TruthyText(filters.value.country)
    ensures FilterLines(filters).1 != "" <==> filters.Some? && TruthyText(filters.value.category)
    ensures filters.Some? && TruthyText(filters.value.country) ==>
      EndsWith(FilterLines(filters).0, filters.value.country.value)
    ensures filters.Some? ==> (FilterLines(filters) ==
      FilterLines(Some(UniversitiesPage.NoFilters.(country := filters.value.country, category := filters.value.category))))
  {
    if filters.Some? && TruthyText(filters.value.country) {
      var line, c := FilterLines(filters).0, filters.value.country.value;
      assert line == "## Filter Applied: Focus on " + c;
      assert line[|line| - |c|..] == c;
    }
  }

  // ------------------------------------------------------------------ handler

  /** The request body: the profile and the filters it carries. */
  datatype RequestBody = RequestBody(profile: Option<Profile>, filters: Option<UniversitiesPage.Filters>)

  /** A preflight, or a POST whose body may fail to parse as JSON. */
  datatype Request = Request(preflight: bool, body: Option<RequestBody>)

  /** What the handler's calls return: the API key, the gateway's status and the text of
      its first choice, and `JSON.parse` on the cleaned text as a partial function. */
  datatype Services = Services(
    apiKey: Option<string>,
    gatewayStatus: int,
    content: Option<string>,
    parse: string -> Option<seq<University>>)

  datatype Outcome =
    | Preflight
    | BadBody                   // reading the body threw; its message is the parser's
    | NotConfigured
    | NoProfile                 // building the prompt from a null profile threw
    | RateLimited
    | CreditsExhausted
    | GatewayFailed
    | EmptyResponse
    | Unparseable
    | Recommended(universities: seq<University>)

  datatype Response = Response(status: int, outcome: Outcome)

  function StatusOf(o: Outcome): int {
    match o
    case Preflight => 200
    case RateLimited => RATE_LIMITED
    case CreditsExhausted => CREDITS_EXHAUSTED
    case Recommended(_) => 200
    case _ => 500
  }

  /** Only a preflight and a parsed answer are answered 200. */
  lemma SuccessStatus(o: Outcome)
    ensures StatusOf(o) == 200 <==> o.Preflight? || o.Recommended?
  {
  }

  /** The error text of a failing response, where it is fixed. */
  function ErrorText(o: Outcome): Option<string> {
    match o
    case NotConfigured => Some("AI service is not configured")
    case RateLimited => Some("Rate limit exceeded. Please try again in a moment.")
    case CreditsExhausted => Some("AI credits exhausted. Please add credits to continue.")
    case GatewayFailed => Some("Failed to get AI response")
    case EmptyResponse => Some("Empty AI response")
    case Unparseable => Some("Failed to parse university recommendations")
    case _ => None
  }

  /** The handler's decision, gate by gate. */
  function HandlerOutcome(req: Request, env: Services): Outcome {
    if req.preflight then Preflight
    else if req.body.None? then BadBody
    else if !TruthyText(env.apiKey) then NotConfigured
    else if req.body.value.profile.None? then NoProfile
    else if !(200 <= env.gatewayStatus < 300) then
      (if env.gatewayStatus == RATE_LIMITED then RateLimited
       else if env.gatewayStatus == CREDITS_EXHAUSTED then CreditsExhausted
       else GatewayFailed)
    else if !TruthyText(env.content) then EmptyResponse
    else
      match env.parse(Cleaned(env.content.value))
      case None => Unparseable
      case Some(us) => Recommended(us)
  }

  /** Past every gate the outcome is decided by parsing the cleaned answer. */
  lemma PassedGatesOutcome(req: Request, env: Services)
    requires !req.preflight && req.body.Some? && TruthyText(env.apiKey) && req.body.value.profile.Some?
    requires 200 <= env.gatewayStatus < 300 && TruthyText(env.content)
    ensures var parsed := env.parse(Cleaned(env.content.value));
      HandlerOutcome(req, env) == if parsed.None? then Unparseable else Recommended(parsed.value)
  {
  }

  /** The request handler, with early returns. */
  method Handle(req: Request, env: Services) returns (resp: Response)
    ensures resp.outcome == HandlerOutcome(req, env)
    ensures resp.status == StatusOf(resp.outcome)
  {
    if req.preflight {
      return Response(200, Preflight);
    }
    if req.body.None? {
      return Response(500, BadBody);
    }
    if !TruthyText(env.apiKey) {
      return Response(500, NotConfigured);
    }
    if req.body.value.profile.None? {
      return Response(500, NoProfile);
    }
    if !(200 <= env.gatewayStatus < 300) {
      if env.gatewayStatus == 429 {
        return Response(429, RateLimited);
      }
      if env.gatewayStatus == 402 {
        return Response(402, CreditsExhausted);
      }
      return Response(500, GatewayFailed);
    }
    if !TruthyText(env.content) {
      return Response(500, EmptyResponse);
    }
    var cleanContent := CleanContent(env.content.value);
    var universities := env.parse(cleanContent);
    PassedGatesOutcome(req, env);
    if universities.None? {
      return Response(500, Unparseable);
    }
    return Response(200, Recommended(universities.value));
  }

  /** Without an API key the handler answers 500 before any call to the gateway: the
      gateway's answer cannot change the outcome. */
  lemma MissingKeyStopsFirst(req: Request, env: Services, env': Services)
    requires !req.preflight && req.body.Some? && !TruthyText(env.apiKey) && env'.apiKey == env.apiKey
    ensures HandlerOutcome(req, env) == NotConfigured == HandlerOutcome(req, env')
    ensures StatusOf(NotConfigured) == 500
  {
  }

  /** A gateway 429 or 402 is passed on as such; every other failing status, an empty
      answer and an unparseable answer all become 500. */
  lemma StatusMapping(req: Request, env: Services)
    requires !req.preflight && req.body.Some? && TruthyText(env.apiKey) && req.body.value.profile.Some?
    ensures !(200 <= env.gatewayStatus < 300) ==>
      StatusOf(HandlerOutcome(req, env)) == if env.gatewayStatus == 429 || env.gatewayStatus == 402 then env.gatewayStatus else 500
    ensures 200 <= env.gatewayStatus < 300 && !TruthyText(env.content) ==> HandlerOutcome(req, env) == EmptyResponse
    ensures 200 <= env.gatewayStatus < 300 ==>
      (StatusOf(HandlerOutcome(req, env)) == 200 <==>
        TruthyText(env.content) && env.parse(Cleaned(env.content.value)).Some?)
  {
    SuccessStatus(HandlerOutcome(req, env));
  }

  /** The reply the recommendations hook reads from a response. */
  function ReplyOf(resp: Response): UniversitiesHook.RecommendationsReply {
    if resp.outcome.Recommended? && 200 <= resp.status < 300 then UniversitiesHook.Answered(Some(resp.outcome.universities))
    else UniversitiesHook.Failed(resp.status)
  }

  /** End to end: the hook shows the rate-limit or credits notice exactly when the
      gateway answered 429 or 402 to a well-formed request, and lists exactly the parsed
      universities when the handler succeeds. */
  lemma HookSeesGatewayLimits(req: Request, env: Services)
    requires !req.preflight && req.body.Some? && TruthyText(env.apiKey) && req.body.value.profile.Some?
    ensures var o := HandlerOutcome(req, env);
      (UniversitiesHook.NoticeFor(ReplyOf(Response(StatusOf(o), o))) == UniversitiesHook.RateLimitNotice <==>
         env.gatewayStatus == 429)
      && (UniversitiesHook.NoticeFor(ReplyOf(Response(StatusOf(o), o))) == UniversitiesHook.CreditsNotice <==>
         env.gatewayStatus == 402)
      && (o.Recommended? ==> ReplyOf(Response(StatusOf(o), o)) == UniversitiesHook.Answered(Some(o.universities)))
  {
    var o := HandlerOutcome(req, env);
    if 200 <= env.gatewayStatus < 300 {
      if TruthyText(env.content) {
        PassedGatesOutcome(req, env);
      }
      assert o.Recommended? || o == EmptyResponse || o == Unparseable;
    } else {
      assert o == RateLimited || o == CreditsExhausted || o == GatewayFailed;
    }
  }
}
