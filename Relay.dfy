/**
 * The serverless relay (api/agent.ts, `handler`): CORS headers, method guards,
 * validation of `input_as_text`, the call into the agent workflow, the
 * substring classification of failures and the validation of the workflow's
 * result. The agent module, its dynamic import and `runWorkflow` are replaced by
 * an abstract outcome; the response object is a log of the calls made on it.
 */
module Relay {
  import opened Wrappers
  import opened Js

  /** `req.method` (None when undefined; named `httpMethod` because `method` is a Dafny keyword) and `req.body` (None when undefined). */
  datatype Request = Request(httpMethod: Option<string>, body: Option<Json>)

  /** What happened when the handler reached for the agent workflow. */
  datatype AgentOutcome =
    | ImportFailed(first: Thrown)   // both `import('../agent.js')` and `import('../agent')` rejected; `first` is the first rejection
    | ExportMissing                 // the module loaded without a `runWorkflow` export
    | RunFailed(error: Thrown)      // `runWorkflow` rejected
    | Returned(result: Json)        // `runWorkflow` resolved to `result`

  /** `process.env.NODE_ENV`, None when `process` or `process.env` is undefined. */
  datatype Env = Env(nodeEnv: Option<string>)

  predicate IsDevelopment(env: Env) {
    env.nodeEnv == Some("development")
  }

  /** The JSON bodies the handler sends. `hasStack` says whether the `stack` field is present. */
  datatype Payload =
    | ErrorOnly(error: string)
    | DependencyUnavailable(error: string, message: string, suggestion: string, details: string)
    | KeyNotConfigured(error: string, message: string, details: string)
    | ServerError(error: string, message: string, hasStack: bool)
    | AgentResult(result: Json)

  datatype Body = NoBody | JsonBody(payload: Payload)

  /**
   * The response the handler produces, and the text passed to `runWorkflow`
   * when it was called at all.
   */
  datatype Reply = Reply(status: int, body: Body, workflowInput: Option<string>)

  const MethodNotAllowed := "Method not allowed"
  const InputRequired := "input_as_text is required and must be a string"
  const ImportFailurePrefix := "Failed to import agent module: "
  const ExportMissingMessage := "runWorkflow function not found in agent module. Make sure agent.ts exports runWorkflow."
  const DependencyError := "Agent dependencies not available"
  const DependencyMessage := "The @openai/agents package is not available as an npm package. You need to deploy the backend separately or use OpenAI SDK directly."
  const DependencySuggestion := "Please deploy your agent code to a separate backend server (Railway, Render, etc.) and configure the API URL in Settings."
  const KeyError := "OpenAI API key not configured"
  const KeyMessage := "Please set OPENAI_API_KEY in Vercel environment variables."
  const InternalError := "Internal server error"
  const UnknownError := "Unknown error"
  const InvalidResultMessage := "Invalid result format from agent"
  const MissingOutputMessage := "Agent result missing output_text"

  /** The TypeError V8 raises for `const { input_as_text } = req.body` on undefined or null. */
  function DestructureError(body: Option<Json>): Thrown {
    var what := if body.None? then "undefined" else "null";
    Error("TypeError", "Cannot destructure property 'input_as_text' of 'req.body' as it is " + what + ".")
  }

  /** The three CORS headers, in the order they are set. */
  const CorsHeaders: seq<(string, string)> := [
    ("Access-Control-Allow-Origin", "*"),
    ("Access-Control-Allow-Methods", "POST, OPTIONS"),
    ("Access-Control-Allow-Headers", "Content-Type, Authorization")
  ]

  /** `input_as_text` as destructured from a body that is not undefined or null. */
  function InputText(body: Json): (t: Option<string>)
    requires !body.JNull?
    ensures t.Some? <==> body.JObject? && "input_as_text" in body.fields
                         && body.fields["input_as_text"].JString? && body.fields["input_as_text"].s != ""
  {
    NonEmptyStringProperty(body, "input_as_text")
  }

  /** The value the inner `catch` receives for a failed agent step. */
  function CaughtFailure(outcome: AgentOutcome): (e: Thrown)
    requires !outcome.Returned?
    ensures outcome.ImportFailed? ==> e == NewError(ImportFailurePrefix + MessageOr(outcome.first, UnknownError))
    ensures outcome.ExportMissing? ==> e == NewError(ExportMissingMessage)
    ensures outcome.RunFailed? ==> e == outcome.error
  {
    match outcome
    case ImportFailed(first) => NewError(ImportFailurePrefix + MessageOr(first, UnknownError))
    case ExportMissing => NewError(ExportMissingMessage)
    case RunFailed(error) => error
  }

  predicate IsDependencyMessage(m: string) {
    Includes(m, "Cannot find module") || Includes(m, "@openai/agents") || Includes(m, "MODULE_NOT_FOUND")
  }

  predicate IsKeyMessage(m: string) {
    Includes(m, "API key") || Includes(m, "OPENAI_API_KEY")
  }

  /** The outer `catch`: 500 with the caught message, and the stack in development only. */
  function ServerErrorReply(e: Thrown, env: Env, workflowInput: Option<string>): (r: Reply)
    ensures r.status == 500
    ensures r.body == JsonBody(ServerError(InternalError, MessageOr(e, UnknownError), IsDevelopment(env) && e.Error?))
    ensures r.workflowInput == workflowInput
  {
    Reply(500, JsonBody(ServerError(InternalError, MessageOr(e, UnknownError), IsDevelopment(env) && e.Error?)), workflowInput)
  }

  /**
   * The inner `catch`: dependency messages first, then key messages, and
   * anything else rethrown to the outer `catch`.
   */
  function ClassifyFailure(e: Thrown, env: Env, workflowInput: Option<string>): (r: Reply)
    ensures r.status == 500 && r.workflowInput == workflowInput && r.body.JsonBody?
    ensures var m := MessageOr(e, UnknownError);
      && (IsDependencyMessage(m) ==> r.body == JsonBody(DependencyUnavailable(DependencyError, DependencyMessage, DependencySuggestion, m)))
      && (!IsDependencyMessage(m) && IsKeyMessage(m) ==> r.body == JsonBody(KeyNotConfigured(KeyError, KeyMessage, m)))
      && (!IsDependencyMessage(m) && !IsKeyMessage(m) ==> r == ServerErrorReply(e, env, workflowInput))
  {
    var m := MessageOr(e, UnknownError);
    if IsDependencyMessage(m) then
      Reply(500, JsonBody(DependencyUnavailable(DependencyError, DependencyMessage, DependencySuggestion, m)), workflowInput)
    else if IsKeyMessage(m) then
      Reply(500, JsonBody(KeyNotConfigured(KeyError, KeyMessage, m)), workflowInput)
    else
      ServerErrorReply(e, env, workflowInput)
  }

  /**
   * A failure whose message is shorter than every pattern matches neither
   * family and is rethrown to the generic 500.
   */
  lemma ShortFailureIsServerError(e: Thrown, env: Env, workflowInput: Option<string>)
    requires |MessageOr(e, UnknownError)| < |"API key"|
    ensures ClassifyFailure(e, env, workflowInput) == ServerErrorReply(e, env, workflowInput)
  {
    var m := MessageOr(e, UnknownError);
    ShortNeverIncludes(m, "Cannot find module");
    ShortNeverIncludes(m, "@openai/agents");
    ShortNeverIncludes(m, "MODULE_NOT_FOUND");
    ShortNeverIncludes(m, "API key");
    ShortNeverIncludes(m, "OPENAI_API_KEY");
  }

  /** The checks on the workflow's result: an object with a non-empty string `output_text` passes through. */
  function ValidateResult(result: Json, env: Env, text: string): (r: Reply)
    ensures r.workflowInput == Some(text)
    ensures r.status == 200 <==> Truthy(result) && TypeofObject(result) && NonEmptyStringProperty(result, "output_text").Some?
    ensures r.status == 200 ==> r.body == JsonBody(AgentResult(result))
    ensures r.status != 200 ==> r.status == 500 && r.body.JsonBody? && r.body.payload.ServerError?
    ensures !(Truthy(result) && TypeofObject(result)) ==> r == ServerErrorReply(NewError(InvalidResultMessage), env, Some(text))
    ensures Truthy(result) && TypeofObject(result) && NonEmptyStringProperty(result, "output_text").None? ==>
              r == ServerErrorReply(NewError(MissingOutputMessage), env, Some(text))
  {
    if !Truthy(result) || !TypeofObject(result) then
      ServerErrorReply(NewError(InvalidResultMessage), env, Some(text))
    else if NonEmptyStringProperty(result, "output_text").None? then
      ServerErrorReply(NewError(MissingOutputMessage), env, Some(text))
    else
      Reply(200, JsonBody(AgentResult(result)), Some(text))
  }

  /** What follows a successful validation of `input_as_text`. */
  function CallAgent(text: string, outcome: AgentOutcome, env: Env): (r: Reply)
    ensures r.workflowInput == (if outcome.RunFailed? || outcome.Returned? then Some(text) else None)
    ensures r.status in {200, 500} && r.body.JsonBody?
  {
    match outcome
    case Returned(result) => ValidateResult(result, env, text)
    case RunFailed(_) => ClassifyFailure(CaughtFailure(outcome), env, Some(text))
    case _ => ClassifyFailure(CaughtFailure(outcome), env, None)
  }

  /** `handler(req, res)` as a decision function from request, agent outcome and environment to reply. */
  function Handle(req: Request, outcome: AgentOutcome, env: Env): (r: Reply)
    // preflight wins over everything else
    ensures req.httpMethod == Some("OPTIONS") ==> r == Reply(200, NoBody, None)
    // every method other than POST and OPTIONS is refused without calling the workflow
    ensures req.httpMethod != Some("OPTIONS") && req.httpMethod != Some("POST") ==>
              r == Reply(405, JsonBody(ErrorOnly(MethodNotAllowed)), None)
    // the workflow is called exactly for a valid POST that got past the import, and with its text
    ensures r.workflowInput.Some? <==>
              req.httpMethod == Some("POST") && req.body.Some? && !req.body.value.JNull?
              && InputText(req.body.value).Some? && (outcome.RunFailed? || outcome.Returned?)
    ensures r.workflowInput.Some? ==> r.workflowInput == InputText(req.body.value)
    ensures r.status == 400 <==>
              req.httpMethod == Some("POST") && req.body.Some? && !req.body.value.JNull? && InputText(req.body.value).None?
    ensures r.status == 400 ==> r.body == JsonBody(ErrorOnly(InputRequired))
    ensures r.status in {200, 400, 405, 500}
    ensures r.body == NoBody <==> req.httpMethod == Some("OPTIONS")
  {
    if req.httpMethod == Some("OPTIONS") then
      Reply(200, NoBody, None)
    else if req.httpMethod != Some("POST") then
      Reply(405, JsonBody(ErrorOnly(MethodNotAllowed)), None)
    else if req.body.None? || req.body.value.JNull? then
      ServerErrorReply(DestructureError(req.body), env, None)
    else
      match InputText(req.body.value)
      case None => Reply(400, JsonBody(ErrorOnly(InputRequired)), None)
      case Some(text) => CallAgent(text, outcome, env)
  }

  /** Outcome independence: a reply that never called the workflow would be the same whatever it does. */
  lemma UncalledIgnoresOutcome(req: Request, o1: AgentOutcome, o2: AgentOutcome, env: Env)
    requires o1.Returned? || o1.RunFailed?
    requires Handle(req, o1, env).workflowInput.None?
    ensures Handle(req, o1, env) == Handle(req, o2, env)
  {
  }

  /** A POST without a body fails on destructuring and takes the generic 500 path, not 400. */
  lemma MissingBodyIsServerError(req: Request, outcome: AgentOutcome, env: Env)
    requires req.httpMethod == Some("POST") && (req.body.None? || req.body == Some(JNull))
    ensures var r := Handle(req, outcome, env);
      r.status == 500 && r.workflowInput.None? && r.body.JsonBody?
      && r.body.payload.ServerError? && r.body.payload.error == InternalError
      && r.body.payload.hasStack == IsDevelopment(env)
  {
  }

  /** A dependency message wins over a key message, whichever way the agent step failed. */
  lemma DependencyBeatsKey(req: Request, outcome: AgentOutcome, env: Env)
    requires req.httpMethod == Some("POST") && req.body.Some? && !req.body.value.JNull? && InputText(req.body.value).Some?
    requires !outcome.Returned?
    requires IsDependencyMessage(MessageOr(CaughtFailure(outcome), UnknownError))
    ensures Handle(req, outcome, env).status == 500
    ensures Handle(req, outcome, env).body.payload
              == DependencyUnavailable(DependencyError, DependencyMessage, DependencySuggestion, MessageOr(CaughtFailure(outcome), UnknownError))
  {
  }

  /**
   * An import that failed for a missing module is reported as unavailable
   * dependencies, even though the handler wraps that message in its own text.
   */
  lemma {:induction false} MissingModuleImportIsDependencyError(req: Request, first: Thrown, env: Env)
    requires req.httpMethod == Some("POST") && req.body.Some? && !req.body.value.JNull? && InputText(req.body.value).Some?
    requires first.Error? && Includes(first.message, "Cannot find module")
    ensures var r := Handle(req, ImportFailed(first), env);
      r.status == 500 && r.workflowInput.None? && r.body.JsonBody? && r.body.payload.DependencyUnavailable?
      && r.body.payload.details == ImportFailurePrefix + first.message
  {
    IncludesAppend(ImportFailurePrefix, first.message, "Cannot find module");
  }

  /** The stack appears in a 500 payload only in development. */
  lemma StackOnlyInDevelopment(req: Request, outcome: AgentOutcome, env: Env)
    requires Handle(req, outcome, env).body.JsonBody?
    requires Handle(req, outcome, env).body.payload.ServerError?
    ensures Handle(req, outcome, env).body.payload.hasStack ==> IsDevelopment(env)
  {
  }

  /**
   * For a valid POST the reply is the agent step's: the validation of a
   * returned result, or the classification of what the inner `catch` caught.
   */
  lemma ValidPostReply(req: Request, outcome: AgentOutcome, env: Env)
    requires req.httpMethod == Some("POST") && req.body.Some? && !req.body.value.JNull?
    requires InputText(req.body.value).Some?
    ensures var text := InputText(req.body.value).value;
      && (outcome.Returned? ==> Handle(req, outcome, env) == ValidateResult(outcome.result, env, text))
      && (outcome.RunFailed? ==> Handle(req, outcome, env) == ClassifyFailure(outcome.error, env, Some(text)))
      && (outcome.ImportFailed? || outcome.ExportMissing? ==>
            Handle(req, outcome, env) == ClassifyFailure(CaughtFailure(outcome), env, None))
  {
  }

  /** A 200 reply carries either nothing (preflight) or a result with a non-empty string `output_text`, unchanged. */
  lemma SuccessCarriesOutputText(req: Request, outcome: AgentOutcome, env: Env)
    requires Handle(req, outcome, env).status == 200
    requires req.httpMethod != Some("OPTIONS")
    ensures outcome.Returned?
    ensures Handle(req, outcome, env).body == JsonBody(AgentResult(outcome.result))
    ensures NonEmptyStringProperty(outcome.result, "output_text").Some?
  {
  }

  /** One call made on the response object. */
  datatype ResCall = SetHeader(name: string, value: string) | SetStatus(code: int) | SendJson(payload: Payload) | End

  /** The response object as the sequence of calls made on it. */
  class ServerResponse {
    var calls: seq<ResCall>

    constructor ()
      ensures calls == []
    {
      calls := [];
    }

    method SetHeader(name: string, value: string)
      modifies this
      ensures calls == old(calls) + [ResCall.SetHeader(name, value)]
    {
      calls := calls + [ResCall.SetHeader(name, value)];
    }

    method Status(code: int)
      modifies this
      ensures calls == old(calls) + [SetStatus(code)]
    {
      calls := calls + [SetStatus(code)];
    }

    method Json(payload: Payload)
      modifies this
      ensures calls == old(calls) + [SendJson(payload)]
    {
      calls := calls + [SendJson(payload)];
    }

    method End()
      modifies this
      ensures calls == old(calls) + [ResCall.End]
    {
      calls := calls + [ResCall.End];
    }
  }

  function HeaderCalls(hs: seq<(string, string)>): (cs: seq<ResCall>)
    ensures |cs| == |hs|
    ensures forall k :: 0 <= k < |hs| ==> cs[k] == ResCall.SetHeader(hs[k].0, hs[k].1)
  {
    if hs == [] then [] else [ResCall.SetHeader(hs[0].0, hs[0].1)] + HeaderCalls(hs[1..])
  }

  /** The calls a handler run makes for a reply: the CORS headers, one status, then the body or `end()`. */
  function Emitted(r: Reply): seq<ResCall> {
    HeaderCalls(CorsHeaders) + [SetStatus(r.status)]
      + (match r.body case NoBody => [ResCall.End] case JsonBody(p) => [SendJson(p)])
  }

  /** On every path the three CORS headers are set before any status, and exactly one status is set. */
  lemma CorsBeforeStatus(r: Reply)
    ensures var cs := Emitted(r);
      && |cs| == 5
      && (forall k :: 0 <= k < 3 ==> cs[k] == ResCall.SetHeader(CorsHeaders[k].0, CorsHeaders[k].1))
      && (forall k :: 0 <= k < |cs| ==> (cs[k].SetStatus? <==> k == 3))
      && cs[3] == SetStatus(r.status)
  {
    var cs := Emitted(r);
    assert cs[..3] == HeaderCalls(CorsHeaders);
  }

  /**
   * `handler` with its early returns, against the response object. The agent
   * step's outcome is given; the method returns the text it passed to
   * `runWorkflow`, if it got that far.
   */
  method Handler(req: Request, outcome: AgentOutcome, env: Env, res: ServerResponse) returns (workflowInput: Option<string>)
    modifies res
    ensures res.calls == old(res.calls) + Emitted(Handle(req, outcome, env))
    ensures workflowInput == Handle(req, outcome, env).workflowInput
  {
    res.SetHeader(CorsHeaders[0].0, CorsHeaders[0].1);
    res.SetHeader(CorsHeaders[1].0, CorsHeaders[1].1);
    res.SetHeader(CorsHeaders[2].0, CorsHeaders[2].1);
    assert res.calls == old(res.calls) + HeaderCalls(CorsHeaders);

    // the status and body that `handler`'s early returns choose
    var reply := Handle(req, outcome, env);

    var sent := res.calls;
    res.Status(reply.status);
    if reply.body.NoBody? {
      res.End();
      assert res.calls == sent + [SetStatus(reply.status)] + [ResCall.End];
    } else {
      res.Json(reply.body.payload);
      assert res.calls == sent + [SetStatus(reply.status)] + [SendJson(reply.body.payload)];
    }
    workflowInput := reply.workflowInput;
  }
}
