/**
 * The wire contract between the bridge and the relay: what the relay makes of
 * the request the bridge builds, and what the bridge makes of the relay's
 * replies. The JSON text in between is taken to round-trip (`JSON.stringify`
 * then parsing yields the same value).
 */
module Wire {
  import opened Wrappers
  import opened Js
  import Relay
  import opened AgentService

  /** The request the bridge sends, as the relay receives it. */
  function AsRelayRequest(req: HttpRequest): Relay.Request {
    Relay.Request(Some(req.httpMethod), Some(req.body))
  }

  /**
   * A non-blank message always passes the relay's guards, and the workflow, when
   * the relay gets as far as calling it, receives exactly the trimmed message.
   */
  lemma BridgeRequestReachesWorkflow(
    message: string, storage: map<string, string>, envUrl: Option<string>,
    fetch: FetchOutcome, outcome: Relay.AgentOutcome, env: Relay.Env)
    requires Trim(message) != ""
    ensures var sent := SendMessage(message, storage, envUrl, fetch).request;
      && sent.Some?
      && var r := Relay.Handle(AsRelayRequest(sent.value), outcome, env);
      && r.status != 400 && r.status != 405
      && r.workflowInput == (if outcome.RunFailed? || outcome.Returned? then Some(Trim(message)) else None)
  {
    var text := Trim(message);
    var req := BuildRequest(text, storage, envUrl);
    assert SendMessage(message, storage, envUrl, fetch).request == Some(req);
    assert AsRelayRequest(req) == Relay.Request(Some("POST"), Some(RequestBody(text)));
    RelayAcceptsBody(text, outcome, env);
  }

  /** The body the bridge sends for a non-empty text passes the relay's guards. */
  lemma RelayAcceptsBody(text: string, outcome: Relay.AgentOutcome, env: Relay.Env)
    requires text != ""
    ensures var r := Relay.Handle(Relay.Request(Some("POST"), Some(RequestBody(text))), outcome, env);
      && r.status != 400 && r.status != 405
      && r.workflowInput == (if outcome.RunFailed? || outcome.Returned? then Some(text) else None)
  {
    assert Relay.InputText(RequestBody(text)) == Some(text);
  }

  /** A 200 reply of the relay to a POST always passes the bridge's validation, which yields its `output_text`. */
  lemma BridgeAcceptsRelaySuccess(req: Relay.Request, outcome: Relay.AgentOutcome, env: Relay.Env, text: Option<string>)
    requires req.httpMethod == Some("POST")
    requires Relay.Handle(req, outcome, env).status == 200
    ensures Relay.Handle(req, outcome, env).body == Relay.JsonBody(Relay.AgentResult(outcome.result))
    ensures Exchange(Responded(200, text, Parsed(outcome.result)))
              == Success(AgentResponse(NonEmptyStringProperty(outcome.result, "output_text").value))
  {
    Relay.SuccessCarriesOutputText(req, outcome, env);
    assert Relay.ValidateResult(outcome.result, env, Relay.InputText(req.body.value).value).status == 200;
  }

  /** Every other status the relay answers a POST with becomes the bridge's "API request failed" error. */
  lemma BridgeRejectsRelayErrors(req: Relay.Request, outcome: Relay.AgentOutcome, env: Relay.Env, text: Option<string>, json: JsonOutcome)
    requires req.httpMethod == Some("POST")
    requires Relay.Handle(req, outcome, env).status != 200
    ensures var s := Relay.Handle(req, outcome, env).status;
      s in {400, 500} && Exchange(Responded(s as nat, text, json)) == Failure(NewError(RequestFailedMessage(s as nat, text)))
  {
  }
}
