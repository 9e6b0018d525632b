# Salla Theme Assistant: a verified model of its request path and chat state

The Salla Theme Assistant is a browser chat that forwards a user's question to
a hosted language-model agent. This project models, in Dafny, the three pieces
of decision logic in it:

- **The relay** (`api/agent.ts`, `handler`). It is a serverless function. It
  sets three CORS headers and answers preflight requests. It refuses methods
  other than POST and validates `input_as_text`. It then calls the agent
  workflow. Workflow failures are sorted by substrings of their message, and a
  successful result is checked for a non-empty string `output_text`.
  - `Relay.Handle` is a pure decision function. It maps (method, body, agent
    outcome, `NODE_ENV`) to (status, payload, text passed to `runWorkflow`).
  - `Relay.Handler` is the imperative form. It works on a `ServerResponse`
    object that logs the calls made on it, and it is proved to emit exactly the
    calls for `Handle`'s reply.
- **The client bridge** (`src/services/agentService.ts`). It trims the
  message and resolves the endpoint: the saved URL, then the build-time URL,
  then `/api/agent`. It adds a bearer header only when a non-empty key is stored. It
  issues one POST and maps the fetch outcome to a reply or to an error message.
  `localStorage` is a `map<string, string>`. The network is an abstract
  `FetchOutcome`.
- **The conversation state** (`src/app/App.tsx`, `ChatInterface`). It is a
  class holding `messages`, `isLoading` and `error`. Each handler is split into
  the step before its `await` and the step after it. Regenerating uses a
  backwards loop, which is proved to find the last user message
  (`Chat.LastUserIndex`).

`Wire` links the bridge and the relay. A request built by the bridge passes
the relay's guards and hands the trimmed text to the workflow. A relay 200
passes the bridge's validation. Every other relay answer becomes the bridge's
`API request failed: <status> <text>` error. The relay's 500 payloads
(`message`, `suggestion`) reach the user only as raw body text in that error.

Files: `Wrappers.dfy` (Option, Result), `Js.dfy` (JSON values, truthiness,
`trim`, `includes`, number formatting, thrown values), `Relay.dfy`,
`AgentService.dfy`, `Chat.dfy`, `Wire.dfy`.

Some facts about the code that a reader might not expect:

- The relay maps no failure to a rate-limit (429) status.
- The relay does not check for a credential before calling the workflow. A
  missing key only shows up as a failure message containing `API key` or
  `OPENAI_API_KEY`.
- When `response.json()` fails to parse, the bridge rethrows the parser's own
  error unchanged. It does not produce a "malformed response" error.
- A POST with no body at all fails while destructuring it, and so gets the
  generic 500, not 400.

## Model

| member | source | states |
|---|---|---|
| `Relay.Handle` | api/agent.ts:22-132 | OPTIONS gives 200 with no body, whatever else holds. Any method other than POST or OPTIONS gives 405 `Method not allowed`. The status is 400 exactly for a POST whose body is neither undefined nor null and whose `input_as_text` is not a non-empty string. `runWorkflow` is called exactly for a valid POST whose import succeeded and exports `runWorkflow`, and it receives that text. A 400 carries `input_as_text is required and must be a string`. Statuses are 200, 400, 405 or 500. |
| `Relay.Handler` | api/agent.ts:22-132 | Emits the three CORS headers, then one status, then `json` or `end()`, exactly as `Handle` decides. Returns the text passed to `runWorkflow`. |
| `Relay.InputText` | api/agent.ts:42-48 | The destructured `input_as_text` is accepted exactly when the body is an object holding it as a non-empty string. |
| `Relay.CaughtFailure` | api/agent.ts:56-75 | A failed import becomes `Failed to import agent module: ` plus the first error's message, or `Unknown error` for a non-Error. A missing export becomes the fixed `runWorkflow function not found` error. A workflow rejection is caught as it is. |
| `Relay.ClassifyFailure` | api/agent.ts:71-99 | A message containing a module substring gives the dependency payload, checked first. A message containing a key substring (and no module substring) gives the key payload. Anything else is rethrown to the generic 500. All three are status 500 with the message in `details` or `message`. |
| `Relay.ServerErrorReply` | api/agent.ts:112-131 | 500 `Internal server error` with the caught message (`Unknown error` for non-Errors). `stack` is present exactly in development and for Error values. |
| `Relay.ValidateResult` | api/agent.ts:102-131 | Status 200 exactly when the result is truthy, of type object and has a non-empty string `output_text`, and then the result is passed through unchanged. Otherwise a 500 `Internal server error`: `Invalid result format` for falsy or non-object results, and `Agent result missing output_text` for an object without a non-empty string `output_text`. |
| `Relay.CallAgent` | api/agent.ts:50-111 | After validation the status is 200 or 500. `runWorkflow` counts as called only when the import and export lookup succeeded. |
| `Relay.ValidPostReply` | api/agent.ts:50-111 | For a POST with a valid `input_as_text`, a returned result gets exactly the validation reply. A workflow rejection gets exactly the classification of its error, with the text passed. A failed import or a missing export gets the classification of the error the inner `catch` sees, with no workflow call. |
| `Relay.UncalledIgnoresOutcome` | api/agent.ts:31-48 | A request that never calls the workflow gets the same reply whatever the workflow would have done. |
| `Relay.MissingBodyIsServerError` | api/agent.ts:41-131 | A POST with an undefined or null body takes the generic 500 path (destructuring TypeError), not 400. The workflow is not called. |
| `Js.ShortNeverIncludes` | api/agent.ts:79-91 | A message shorter than a pattern never contains it, so the substring tests can fail. |
| `Relay.ShortFailureIsServerError` | api/agent.ts:79-99 | A failure whose message is shorter than `API key` matches neither the dependency nor the key patterns and is rethrown to the generic 500. |
| `Relay.DependencyBeatsKey` | api/agent.ts:79-97 | A failure message matching the dependency substrings yields the dependency payload even when it also mentions `API key`. |
| `Relay.MissingModuleImportIsDependencyError` | api/agent.ts:56-88 | An import that failed with `Cannot find module` is reported as unavailable dependencies, despite the handler's own prefix on the message. |
| `Relay.StackOnlyInDevelopment` | api/agent.ts:125-130 | A 500 payload carries `stack` only when `NODE_ENV` is `development`. |
| `Relay.SuccessCarriesOutputText` | api/agent.ts:102-111 | Every non-preflight 200 comes from a returned result, carried unchanged and holding a non-empty string `output_text`. |
| `Relay.CorsBeforeStatus` | api/agent.ts:26-34 | On every path the three CORS headers, with their exact values, are the first three calls. Exactly one status call follows them. |
| `Js.MessageOr` | api/agent.ts:75 | A caught Error contributes its own message. Any other thrown value gets the fallback text. |
| `Js.Property` | src/services/agentService.ts:83 | Property lookup on parsed JSON finds a key only on objects that hold it. |
| `Js.NonEmptyStringProperty` | src/services/agentService.ts:83-85 | The guard that rejects missing, empty and non-string values passes exactly for a present, non-empty string property. |
| `Js.TrimStart` | src/services/agentService.ts:39 | The result is a suffix of the input, preceded only by whitespace, and does not start with whitespace. |
| `Js.TrimEnd` | src/services/agentService.ts:39 | The result is a prefix of the input, followed only by whitespace, and does not end with whitespace. |
| `Js.Trim` | src/services/agentService.ts:39 | A non-empty result has no whitespace at either end. |
| `Js.TrimIsSlice` | src/services/agentService.ts:39 | `trim` returns a contiguous slice of its input, with only whitespace removed on both sides. |
| `Js.TrimEmptyIff` | src/services/agentService.ts:39-42 | A message trims to the empty string exactly when it is all whitespace. |
| `Js.TrimIdempotent` | src/services/agentService.ts:39 | Trimming twice is the same as trimming once. |
| `Js.IncludesAppend` | api/agent.ts:79-81 | Putting text in front of a string never hides a substring match. |
| `Js.NatToString` | src/services/agentService.ts:73 | The decimal form of a status code is a non-empty string of digits. It has one digit exactly for values below 10, and starts with `0` only for 0, so there are no leading zeros. |
| `Js.NatToStringValue` | src/services/agentService.ts:73 | The digits of the decimal form, read most significant first, denote the status code itself. |
| `AgentService.GetItem` | src/services/agentService.ts:16 | `localStorage.getItem` gives the stored value, or null for a missing key. |
| `AgentService.GetApiEndpoint` | src/services/agentService.ts:14-22 | Resolves to the saved `agent_api_url` if it is non-empty, else `VITE_AGENT_API_URL` if it is non-empty, else `/api/agent`. The result is never empty. |
| `AgentService.SavedEndpointWins` | src/services/agentService.ts:14-19 | A non-empty saved URL is used whatever the build-time value is. |
| `AgentService.GetApiKey` | src/services/agentService.ts:27-29 | The key is exactly the stored `agent_api_key`, if there is one. |
| `AgentService.BuildHeaders` | src/services/agentService.ts:47-55 | `Content-Type: application/json` is always present. `Authorization` is present exactly for a present, non-empty key, and its value is `Bearer ` + key. There are no other headers. |
| `AgentService.RequestBody` | src/services/agentService.ts:65 | The body is an object with the single key `input_as_text` holding the text. |
| `AgentService.BuildRequest` | src/services/agentService.ts:44-66 | A POST to the resolved endpoint, with the built headers and `{input_as_text: text}`. |
| `AgentService.ValidateData` | src/services/agentService.ts:78-89 | Success exactly for truthy object data with a non-empty string `output_text`, which is returned. Null or non-objects fail with `expected object`. Other data fail with `missing or invalid output_text`. |
| `AgentService.RequestFailedMessage` | src/services/agentService.ts:72-73 | The error text is `API request failed: `, then the decimal status, a space, and the response text, or `Unknown error` when it cannot be read. |
| `AgentService.Exchange` | src/services/agentService.ts:61-89 | A rejected fetch throws its error. A non-ok status throws `API request failed: <status> <text>`, with `Unknown error` as the text when the body cannot be read. A parse failure throws the parser's error. Parsed data goes to validation. |
| `AgentService.Caught` | src/services/agentService.ts:90-101 | An `AbortError` becomes the timeout error. Any other Error is rethrown unchanged. A non-Error becomes `Failed to communicate with agent`. The result is always an Error. |
| `AgentService.SendMessage` | src/services/agentService.ts:37-102 | A blank message fails with `Message cannot be empty` and no request is made. Otherwise exactly one request carries the trimmed text, and the result is the `try` body's outcome after the `catch` mapping. It only rejects with Error values. |
| `AgentService.SuccessIff` | src/services/agentService.ts:71-89 | The call succeeds exactly for a non-blank message and an ok response whose parsed data passes validation. It then resolves to that `output_text`. |
| `AgentService.FailureMessages` | src/services/agentService.ts:71-100 | The error for each failure path: timeout, rethrown network error, non-Error throw, non-ok status, non-object data. |
| `AgentService.NotFoundExample` | src/services/agentService.ts:71-74 | A 404 with body `not found` fails with `API request failed: 404 not found`. |
| `AgentService.OkResponseIsValidation` | src/services/agentService.ts:76-97 | For a non-blank message and an ok response with parsed data, the call settles exactly as the validation does: its errors pass the `catch` unchanged. |
| `AgentService.OutputTextExamples` | src/services/agentService.ts:83-89 | Validation rejects `{"output_text": 42}` and `{}` with the `output_text` error. It accepts `{"output_text": "Hello!"}` as `Hello!`. |
| `Chat.LastUserIndex` | src/app/App.tsx:95-101 | The found index holds a user message and no later message is from the user. None is returned exactly when there is no user message. |
| `Chat.LastUserIsLastFound` | src/app/App.tsx:95-101 | The first user message met going backwards is the one the search returns. |
| `Chat.LastUserAfterExchange` | src/app/App.tsx:95-101 | After an exchange (user message, then assistant message), the search finds that user message. |
| `Chat.OfferedRegenerateKeepsPrompt` | src/app/App.tsx:112-116 | When the button is offered, the user message to resend comes before the last message, so it survives dropping the last message. |
| `Chat.ChatInterface.constructor` | src/app/App.tsx:21-24 | Starts with no messages, not loading and no error. |
| `Chat.ChatInterface.ShowRegenerateButton` | src/app/App.tsx:153-154 | Shown exactly when the last message exists and is the assistant's and nothing is loading. The message a regenerate would drop is then never the user message it resends. |
| `Chat.ChatInterface.StartSend` | src/app/App.tsx:34-58 | No change while loading. Otherwise the error is cleared, exactly one user message with the given content is appended (earlier messages unchanged) and loading is set. |
| `Chat.ChatInterface.Complete` | src/app/App.tsx:60-88 | The step after the `await`, which both completion handlers share, with the fallback text as a parameter. Success appends one assistant message with `output_text` and clears the error. Failure keeps the messages and shows the error's message, or the fallback for non-Errors. Loading ends either way. |
| `Chat.ChatInterface.CompleteSend` | src/app/App.tsx:60-88 | Delegates to `Complete` with the send fallback. Success appends one assistant message with `output_text` and clears the error. Failure keeps the messages and shows the error's message, or the send fallback text for non-Errors. Loading ends either way. |
| `Chat.ChatInterface.StartRegenerate` | src/app/App.tsx:91-116 | No change with fewer than two messages, while loading, or with no user message. Otherwise it drops exactly the last message, clears the error, sets loading and returns the content of the last user message. |
| `Chat.ChatInterface.CompleteRegenerate` | src/app/App.tsx:118-143 | As `CompleteSend`, with the regenerate fallback text. |
| `Chat.ChatInterface.Clear` | src/app/App.tsx:146-151 | Back to no messages, not loading, no error, from any state. |
| `Chat.SendThenRegenerate` | src/app/App.tsx:34-119 | From any chat that is not loading, after a successful send the button is shown. Regenerating then resends the same content, keeps the earlier messages, and leaves the user message last with a request in flight. |
| `Wire.BridgeRequestReachesWorkflow` | api/agent.ts:42-70 | The bridge's request for a non-blank message is never refused with 400 or 405. The workflow, if called, receives exactly the trimmed message. |
| `Wire.RelayAcceptsBody` | api/agent.ts:42-70 | A POST whose body is the bridge's `{input_as_text}` object with non-empty text is never refused with 400 or 405. The workflow, if called, receives that text. |
| `Wire.BridgeAcceptsRelaySuccess` | src/services/agentService.ts:76-89 | Every 200 the relay sends to a POST passes the bridge's validation and resolves to its `output_text`. |
| `Wire.BridgeRejectsRelayErrors` | src/services/agentService.ts:71-74 | The relay's other answers to a POST are 400 or 500. The bridge turns them into `API request failed` with that status. |

## Left out

- `runWorkflow` in `agent.ts` wraps the `@openai/agents` library (`Runner.run`, `withTrace`). Its own check of `input_as_text`, its trimming and its `finalOutput` check are left out. Only what the agent step settles to is modelled: a failed import, a missing export, a rejection, or a returned value.
- The dynamic `import()` and its fallback to the second path are modelled only by their outcome. When both imports fail, the first rejection is the one whose message is kept.
- `fetch`, `AbortController` and the 30 second `setTimeout` are modelled only by what the fetch settles to. A timeout is a rejection whose name is `AbortError`. `clearTimeout` has no effect in the model.
- `JSON.stringify` and JSON parsing are not modelled. The wire lemmas take serialisation followed by parsing as the identity on JSON values.
- JSON numbers are integers. Floating point, `NaN` and `-0` are not modelled.
- Property lookup covers the data keys the code reads. Inherited properties such as those on the prototype are not modelled.
- `console.error` logging is not modelled.
- `Relay.ServerErrorReply`: records only whether `stack` is present, not the text of the stack trace, which the runtime produces.
- `Relay.DestructureError`: the TypeError text for an undefined or null body is V8's wording. The language does not fix it.
- `Relay.Handler`: the `res.status(...)` chaining is modelled as separate calls on one response object.
- Dafny characters are Unicode scalar values, while JavaScript strings are UTF-16 code units. Lone surrogates and the length of non-BMP text are not modelled.
- `localStorage` and `import.meta.env` are parameters: a map and an optional string.
- `generateMessageId` and `new Date()` are not modelled. Ids and timestamps are parameters of the chat methods, and their uniqueness is not claimed.
- React's asynchronous `setChatState` batching and stale-closure reads of `chatState` are not modelled. Each handler step is one atomic transition. Interleavings, such as a clear arriving while a request is pending, are not constrained: a completion step is specified for any state.
- The user interface components do only rendering, clipboard or styling, and are not part of this model. That includes the settings dialog's default of `/api/agent` when saving an empty URL.
