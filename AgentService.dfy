/**
 * The client request bridge (src/services/agentService.ts): endpoint and key
 * resolution from the settings store, header construction, the single POST,
 * and the mapping of the fetch outcome to a reply or an error. `localStorage`
 * is a map, `import.meta.env.VITE_AGENT_API_URL` an optional string, and the
 * network (including the 30 second abort timer) an abstract outcome.
 */
module AgentService {
  import opened Wrappers
  import opened Js

  const ApiUrlSetting := "agent_api_url"
  const ApiKeySetting := "agent_api_key"
  const DefaultEndpoint := "/api/agent"

  const EmptyMessage := "Message cannot be empty"
  const RequestFailedPrefix := "API request failed: "
  const UnknownBodyText := "Unknown error"
  const NotAnObjectMessage := "Invalid response format: expected object"
  const BadOutputMessage := "Invalid response format: missing or invalid output_text"
  const TimeoutMessage := "Request timeout: The agent took too long to respond"
  const CommunicationMessage := "Failed to communicate with agent"

  /** What `sendMessageToAgent` resolves to. */
  datatype AgentResponse = AgentResponse(output_text: string)

  /** The one request the bridge issues. */
  datatype HttpRequest = HttpRequest(url: string, httpMethod: string, headers: map<string, string>, body: Json)

  /** What `response.json()` settles to. */
  datatype JsonOutcome = Parsed(value: Json) | ParseRejected(error: Thrown)

  /**
   * What `fetch` settles to. `text` is what `response.text()` resolves to,
   * None when it rejects; only one of `text` and `json` is read.
   */
  datatype FetchOutcome =
    | Rejected(error: Thrown)   // an `AbortError` when the timer fires, a `TypeError` on network failure, ...
    | Responded(status: nat, text: Option<string>, json: JsonOutcome)

  /** `response.ok` */
  predicate Ok(status: nat) {
    200 <= status <= 299
  }

  /** `localStorage.getItem(key)`, None for null. */
  function GetItem(storage: map<string, string>, key: string): (v: Option<string>)
    ensures v.Some? <==> key in storage
    ensures v.Some? ==> v.value == storage[key]
  {
    if key in storage then Some(storage[key]) else None
  }

  /** A stored or configured string that is present and non-empty (truthy). */
  predicate Usable(v: Option<string>) {
    v.Some? && v.value != ""
  }

  /** `getApiEndpoint()`: the saved URL, else the build-time URL, else the default path. */
  function GetApiEndpoint(storage: map<string, string>, envUrl: Option<string>): (url: string)
    ensures url != ""
    ensures Usable(GetItem(storage, ApiUrlSetting)) ==> url == storage[ApiUrlSetting]
    ensures !Usable(GetItem(storage, ApiUrlSetting)) && Usable(envUrl) ==> url == envUrl.value
    ensures !Usable(GetItem(storage, ApiUrlSetting)) && !Usable(envUrl) ==> url == DefaultEndpoint
  {
    var saved := GetItem(storage, ApiUrlSetting);
    if Usable(saved) then saved.value
    else if Usable(envUrl) then envUrl.value
    else DefaultEndpoint
  }

  /** `getApiKey()` */
  function GetApiKey(storage: map<string, string>): (key: Option<string>)
    ensures key.Some? <==> ApiKeySetting in storage
    ensures key.Some? ==> key.value == storage[ApiKeySetting]
  {
    GetItem(storage, ApiKeySetting)
  }

  /** The headers object: the content type always, a bearer credential only for a non-empty key. */
  function BuildHeaders(apiKey: Option<string>): (h: map<string, string>)
    ensures "Content-Type" in h && h["Content-Type"] == "application/json"
    ensures "Authorization" in h <==> Usable(apiKey)
    ensures "Authorization" in h ==> h["Authorization"] == "Bearer " + apiKey.value
    ensures h.Keys <= {"Content-Type", "Authorization"}
  {
    var headers := map["Content-Type" := "application/json"];
    if Usable(apiKey) then headers["Authorization" := "Bearer " + apiKey.value] else headers
  }

  /** `{ input_as_text: sanitizedMessage }` before `JSON.stringify`. */
  function RequestBody(text: string): (b: Json)
    ensures NonEmptyStringProperty(b, "input_as_text") == (if text != "" then Some(text) else None)
    ensures b.JObject? && b.fields.Keys == {"input_as_text"}
  {
    JObject(map["input_as_text" := JString(text)])
  }

  /** The POST the bridge builds: the resolved endpoint, the headers from the stored key, and a body holding the trimmed text. */
  function BuildRequest(text: string, storage: map<string, string>, envUrl: Option<string>): (req: HttpRequest)
    ensures req.httpMethod == "POST" && req.url == GetApiEndpoint(storage, envUrl)
    ensures req.headers == BuildHeaders(GetApiKey(storage)) && req.body == RequestBody(text)
  {
    HttpRequest(GetApiEndpoint(storage, envUrl), "POST", BuildHeaders(GetApiKey(storage)), RequestBody(text))
  }

  /** The checks on parsed data: an object-like value with a non-empty string `output_text`. */
  function ValidateData(data: Json): (r: Result<AgentResponse, Thrown>)
    ensures r.Success? <==> Truthy(data) && TypeofObject(data) && NonEmptyStringProperty(data, "output_text").Some?
    ensures r.Success? ==> data.fields["output_text"] == JString(r.value.output_text)
    ensures !(Truthy(data) && TypeofObject(data)) ==> r == Failure(NewError(NotAnObjectMessage))
    ensures Truthy(data) && TypeofObject(data) && r.Failure? ==> r == Failure(NewError(BadOutputMessage))
  {
    if !Truthy(data) || !TypeofObject(data) then Failure(NewError(NotAnObjectMessage))
    else match NonEmptyStringProperty(data, "output_text")
      case None => Failure(NewError(BadOutputMessage))
      case Some(text) => Success(AgentResponse(text))
  }

  /** The error thrown for a non-ok response. */
  function RequestFailedMessage(status: nat, text: Option<string>): (m: string)
    ensures var head := RequestFailedPrefix + NatToString(status) + " ";
      var tail := if text.Some? then text.value else UnknownBodyText;
      && |m| == |head| + |tail| && m[..|head|] == head && m[|head|..] == tail
  {
    RequestFailedPrefix + NatToString(status) + " " + (if text.Some? then text.value else UnknownBodyText)
  }

  /** The body of the `try`: what it returns, or what it throws to the `catch`. */
  function Exchange(fetch: FetchOutcome): (r: Result<AgentResponse, Thrown>)
    ensures fetch.Rejected? ==> r == Failure(fetch.error)
    ensures fetch.Responded? && !Ok(fetch.status) ==>
              r == Failure(NewError(RequestFailedMessage(fetch.status, fetch.text)))
    ensures fetch.Responded? && Ok(fetch.status) && fetch.json.ParseRejected? ==> r == Failure(fetch.json.error)
    ensures fetch.Responded? && Ok(fetch.status) && fetch.json.Parsed? ==> r == ValidateData(fetch.json.value)
  {
    match fetch
    case Rejected(error) => Failure(error)
    case Responded(status, text, json) =>
      if !Ok(status) then Failure(NewError(RequestFailedMessage(status, text)))
      else match json
        case ParseRejected(error) => Failure(error)
        case Parsed(data) => ValidateData(data)
  }

  /** The `catch`: an abort becomes a timeout, other errors pass unchanged, non-errors get a generic error. */
  function Caught(e: Thrown): (out: Thrown)
    ensures out.Error?
    ensures e.Error? && e.name == "AbortError" ==> out == NewError(TimeoutMessage)
    ensures e.Error? && e.name != "AbortError" ==> out == e
    ensures e.NonError? ==> out == NewError(CommunicationMessage)
  {
    match e
    case Error(name, _) => if name == "AbortError" then NewError(TimeoutMessage) else e
    case NonError => NewError(CommunicationMessage)
  }

  /** One call of `sendMessageToAgent`: the request it issued (if any) and how it settled. */
  datatype Call = Call(request: Option<HttpRequest>, result: Result<AgentResponse, Thrown>)

  /** `sendMessageToAgent(message)` against given settings and a given network outcome. */
  function SendMessage(message: string, storage: map<string, string>, envUrl: Option<string>, fetch: FetchOutcome): (c: Call)
    // a blank message fails before any lookup or request
    ensures Trim(message) == "" ==> c == Call(None, Failure(NewError(EmptyMessage)))
    // otherwise exactly one request, carrying the trimmed text
    ensures Trim(message) != "" ==> c.request == Some(BuildRequest(Trim(message), storage, envUrl))
    // it only ever rejects with an Error instance
    ensures c.result.Failure? ==> c.result.error.Error?
    ensures Trim(message) != "" ==> c.result == (match Exchange(fetch)
                                                  case Success(v) => Success(v)
                                                  case Failure(e) => Failure(Caught(e)))
  {
    var sanitized := Trim(message);
    if sanitized == "" then Call(None, Failure(NewError(EmptyMessage)))
    else
      var request := BuildRequest(sanitized, storage, envUrl);
      match Exchange(fetch)
      case Success(v) => Call(Some(request), Success(v))
      case Failure(e) => Call(Some(request), Failure(Caught(e)))
  }

  /** Success exactly for an ok response whose parsed data passes validation, and then with its `output_text`. */
  lemma SuccessIff(message: string, storage: map<string, string>, envUrl: Option<string>, fetch: FetchOutcome)
    ensures SendMessage(message, storage, envUrl, fetch).result.Success? <==>
              Trim(message) != "" && fetch.Responded? && Ok(fetch.status) && fetch.json.Parsed?
              && Truthy(fetch.json.value) && TypeofObject(fetch.json.value)
              && NonEmptyStringProperty(fetch.json.value, "output_text").Some?
    ensures SendMessage(message, storage, envUrl, fetch).result.Success? ==>
              SendMessage(message, storage, envUrl, fetch).result.value.output_text
                == NonEmptyStringProperty(fetch.json.value, "output_text").value
  {
  }

  /** The error message a caller sees, for every failure path. */
  lemma FailureMessages(message: string, storage: map<string, string>, envUrl: Option<string>, fetch: FetchOutcome)
    requires Trim(message) != ""
    ensures var r := SendMessage(message, storage, envUrl, fetch).result;
      && (fetch.Rejected? && fetch.error.Error? && fetch.error.name == "AbortError" ==> r == Failure(NewError(TimeoutMessage)))
      && (fetch.Rejected? && fetch.error.Error? && fetch.error.name != "AbortError" ==> r == Failure(fetch.error))
      && (fetch.Rejected? && fetch.error.NonError? ==> r == Failure(NewError(CommunicationMessage)))
      && (fetch.Responded? && !Ok(fetch.status) ==> r == Failure(NewError(RequestFailedMessage(fetch.status, fetch.text))))
      && (fetch.Responded? && Ok(fetch.status) && fetch.json.Parsed? && !TypeofObject(fetch.json.value) ==>
            r == Failure(NewError(NotAnObjectMessage)))
      && (fetch.Responded? && Ok(fetch.status) && fetch.json.Parsed? && fetch.json.value == JNull ==>
            r == Failure(NewError(NotAnObjectMessage)))
  {
    var r := SendMessage(message, storage, envUrl, fetch).result;
    match fetch
    case Rejected(e) =>
      assert Exchange(fetch) == Failure(e);
      assert r == Failure(Caught(e));
    case Responded(status, text, json) =>
      if !Ok(status) {
        var e := NewError(RequestFailedMessage(status, text));
        assert Exchange(fetch) == Failure(e);
        assert Caught(e) == e;
        assert r == Failure(e);
      } else if json.Parsed? {
        OkResponseIsValidation(message, storage, envUrl, status, text, json.value);
      }
  }

  /** The example of a 404 with body "not found". */
  lemma NotFoundExample(message: string, storage: map<string, string>, envUrl: Option<string>, json: JsonOutcome)
    requires Trim(message) != ""
    ensures SendMessage(message, storage, envUrl, Responded(404, Some("not found"), json)).result
              == Failure(NewError("API request failed: 404 not found"))
  {
    var f := Responded(404, Some("not found"), json);
    FailureMessages(message, storage, envUrl, f);
    NotFoundText();
  }

  lemma NotFoundText()
    ensures RequestFailedMessage(404, Some("not found")) == "API request failed: 404 not found"
  {
    assert NatToString(4) == "4";
    assert NatToString(40) == NatToString(4) + [Digit(0)] == "40";
    assert NatToString(404) == "404";
    assert RequestFailedMessage(404, Some("not found")) == RequestFailedPrefix + "404" + " " + "not found";
  }

  /** For an ok response with parsed data, the call settles exactly as the validation does. */
  lemma OkResponseIsValidation(message: string, storage: map<string, string>, envUrl: Option<string>, status: nat, text: Option<string>, data: Json)
    requires Trim(message) != "" && Ok(status)
    ensures SendMessage(message, storage, envUrl, Responded(status, text, Parsed(data))).result == ValidateData(data)
  {
    var v := ValidateData(data);
    if v.Failure? {
      assert v.error == NewError(NotAnObjectMessage) || v.error == NewError(BadOutputMessage);
      assert Caught(v.error) == v.error;
    }
  }

  /** `{"output_text": 42}` and `{}` are malformed; `{"output_text": "Hello!"}` yields "Hello!". */
  lemma OutputTextExamples()
    ensures ValidateData(JObject(map["output_text" := JNumber(42)])) == Failure(NewError(BadOutputMessage))
    ensures ValidateData(JObject(map[])) == Failure(NewError(BadOutputMessage))
    ensures ValidateData(JObject(map["output_text" := JString("Hello!")])) == Success(AgentResponse("Hello!"))
  {
    var number := JObject(map["output_text" := JNumber(42)]);
    assert NonEmptyStringProperty(number, "output_text") == None;
    var empty := JObject(map[]);
    assert NonEmptyStringProperty(empty, "output_text") == None;
    var hello := JObject(map["output_text" := JString("Hello!")]);
    assert NonEmptyStringProperty(hello, "output_text") == Some("Hello!");
  }

  /** The endpoint never depends on the message, the key or the outcome, and a saved URL always wins. */
  lemma SavedEndpointWins(storage: map<string, string>, e1: Option<string>, e2: Option<string>)
    requires ApiUrlSetting in storage && storage[ApiUrlSetting] != ""
    ensures GetApiEndpoint(storage, e1) == GetApiEndpoint(storage, e2) == storage[ApiUrlSetting]
  {
  }
}
