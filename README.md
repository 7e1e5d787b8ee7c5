# cyclebot relay — a Dafny model

cyclebot is a small web front end for a coding agent. A browser page sends a
prompt to a FastAPI server over a WebSocket. The server relays everything the
agent produces back as a stream. The protocol is JSON-RPC 2.0:

- the browser sends a `prompt` request with an integer id;
- the server answers with one `message` notification per agent message;
- a single final response follows, carrying the same id, either
  `{"turn_count": n, "status": "completed"}` or an error.

This project models four parts of that system and proves properties about them:

- **The server dispatch loop** (`websocket_endpoint`, `session.dfy`). Each text
  frame is decoded and validated as a request. A `prompt` request goes to the
  relay; any other method gets -32601. An object that fails validation gets
  -32700 and the loop continues. An exception outside the guarded blocks ends the
  connection.
- **The relay** (`handle_prompt`, `relay.dfy`). Without `content` it answers
  -32602. Otherwise it builds the options, relays the agent's messages one by one
  while counting turns, and sends the final response, or -32000 when the stream
  raises.
- **The browser side**:
  - the prompt input component (`prompt_input.dfy`): the `run` guard, how
    `getOptions` reads the four option fields, and the disabled state;
  - the application object (`app.dfy`): the request counter, the map of pending
    requests, and routing incoming messages to the stream handler or the response
    handler.
- **Chart naming and selection** (`chart.dfy`). A chart file is named
  `{timestamp}-{timeframe}.png`. The latest chart of a timeframe is the greatest
  file name that matches the timeframe's pattern.

Shared pieces:

- `wire.dfy`: JSON values, the request and response records, events and error
  codes.
- `text.dfy`: JavaScript `trim`, `split`, Python's string order and suffix tests.
- `wrappers.dfy`: `Option`.

How the model is shaped:

- The server loop and the relay are methods. `Session.SessionLoop` and
  `Relay.HandlePrompt` take an input trace and return the output sequence. Each
  is proved equal to a specification function (`Session.RunSession`,
  `Relay.Relayed`), and the lemmas state what the protocol promises about those
  functions.
- The browser objects are classes whose methods update fields, as in the source.
- The agent's stream is a `Trace`: a list of messages, then either the end of the
  stream or an exception with its text.
- Two things are parameters of the model rather than computed:
  - whether the options object can be built, because that is a foreign
    constructor;
  - `parseInt`, as a partial function.
- The chart directory is the list of file names it holds. The clock is the
  timestamp text it would give.

Where the code and its documented intent differ, the model follows the code.
The documented intent is a -32700 reply for a frame that is not valid JSON. The
code calls `json.loads` at src/cyclebot/web.py:68, outside the block that
produces -32700, so such a frame raises out of the loop and ends the connection
with no reply. `Session.MalformedFrameEndsSession` states the behaviour as
written.

Other edges of the loop follow the code as written:

- A frame that decodes to something other than an object fails twice. First,
  `JSONRPCRequest(**x)` raises. Then `x.get` in the handler raises too. The
  connection ends with no reply.
- In the -32700 branch, the raw `id` is validated again by the response model.
  An id that is not null, an integer, a string, a boolean or an integral float
  ends the connection instead.
- A truthy `options` value is built into an options object before the guarded
  block (src/cyclebot/web.py:111-113). If that build fails, or the value is not
  an object, the connection ends with no reply.

## Model

| member | source | states |
|---|---|---|
| Text.TrimStart | src/cyclebot/static/components/prompt-input.js:218 | the result is a suffix of the input, starts with a non-space character, and only white space was removed |
| Text.TrimEnd | src/cyclebot/static/components/prompt-input.js:218 | the result is a prefix of the input, ends with a non-space character, and only white space was removed |
| Text.Trim | src/cyclebot/static/components/prompt-input.js:218 | `trim()` neither begins nor ends with white space and is no longer than its input |
| Text.TrimIsTrimOf | src/cyclebot/static/components/prompt-input.js:218 | trimming cuts only white space, only from the two ends, and leaves a trimmed string |
| Text.TrimOfStart | src/cyclebot/static/components/prompt-input.js:218 | in any such decomposition the cut parts are all white space and the kept part starts and ends with non-space characters |
| Text.TrimOfUnique | src/cyclebot/static/components/prompt-input.js:218 | there is only one way to trim a string, and `Trim` is it |
| Text.TrimWithin | src/cyclebot/static/components/prompt-input.js:263 | every character of the trimmed string comes from the original, so trimming adds no comma |
| Text.TrimTrimmed | src/cyclebot/static/components/prompt-input.js:243 | trimming an already trimmed string leaves it unchanged, so trimming twice is the same as once |
| Text.Split | src/cyclebot/static/components/prompt-input.js:263 | `split(',')` yields at least one piece and no piece contains a comma |
| Text.JoinSplit | src/cyclebot/static/components/prompt-input.js:263 | putting the pieces back together with the separator restores the string |
| Text.SplitWithoutSep | src/cyclebot/static/components/prompt-input.js:263 | a string without the separator splits into itself |
| Text.SplitAfterPiece | src/cyclebot/static/components/prompt-input.js:263 | a separator-free piece followed by the separator splits off as the first piece |
| Text.SplitAppend | src/cyclebot/static/components/prompt-input.js:263 | splitting `a,b` gives the pieces of `a` followed by the pieces of `b` |
| Text.SplitJoin | src/cyclebot/static/components/prompt-input.js:263 | splitting a separator-joined list of separator-free pieces gives the list back |
| Text.LexLeReflexive | src/cyclebot/chart.py:81 | Python's string order is reflexive |
| Text.LexLeTotal | src/cyclebot/chart.py:81 | any two strings are comparable |
| Text.LexLeTransitive | src/cyclebot/chart.py:81 | the order is transitive |
| Text.LexLeAntisymmetric | src/cyclebot/chart.py:81 | strings that compare both ways are equal, so sorting has a single first element |
| Text.LexLeCommonSuffix | src/cyclebot/chart.py:58 | a common suffix after equal-length prefixes does not change their order |
| Wire.ResponseCountAppend | src/cyclebot/web.py:186-202 | the number of responses in two stretches of output adds up |
| Relay.AssistantBlocks | src/cyclebot/web.py:130-140 | an assistant notification holds only text and tool-use blocks, at most one per SDK block |
| Relay.UserBlocks | src/cyclebot/web.py:160-171 | a user notification holds only text and tool-result blocks, at most one per SDK block |
| Relay.AssistantContent | src/cyclebot/web.py:130-140 | the block loop for an assistant message builds exactly `AssistantBlocks` of its blocks |
| Relay.UserContent | src/cyclebot/web.py:161-171 | the block loop for a user message builds exactly `UserBlocks` of its blocks |
| Relay.RelayMessage | src/cyclebot/web.py:119-185 | one message moves the turn counter on exactly when it is an assistant or result message, and is relayed as `ToEvent` of it with the new counter |
| Relay.HandlePrompt | src/cyclebot/web.py:97-202 | the messages a `handle_prompt` call sends, and whether it raises, are exactly those of the specification `Relayed`: a -32602 error without content, or one notification per message followed by the final response |
| Relay.NotificationsShape | src/cyclebot/web.py:117-188 | one notification per producer message, in producer order; the i-th one relays message i with the turn counter as it stands after message i |
| Relay.NotificationsAreNotResponses | src/cyclebot/web.py:186-188 | the streamed notifications contain no response |
| Relay.RelayStreams | src/cyclebot/web.py:186-202 | with content and buildable options, the reply is the notifications followed by one response with the request's id: `turn_count` equal to the number of assistant and result messages when the stream ends, error -32000 "Internal error" with the exception text when it raises; nothing escapes |
| Relay.RelayAnswersOnce | src/cyclebot/web.py:97-202 | a call that does not raise sends exactly one response, last, echoing the id; a call that raises has sent nothing |
| Relay.RelayMissingContent | src/cyclebot/web.py:99-105 | without params or without `content`, the only message is -32602 "Invalid params: 'content' required" with the request's id, and the producer is never consulted |
| Relay.TurnsInAppend | src/cyclebot/web.py:115-174 | the turn counter adds up over consecutive stretches of the stream |
| Relay.TurnsInStep | src/cyclebot/web.py:121-174 | assistant and result messages raise the counter by exactly one; system, user and unrecognised messages leave it unchanged |
| Relay.TurnNumbersIncrease | src/cyclebot/web.py:121-127 | turn numbers carried by successive turn messages are at least 1 and strictly increase |
| Relay.AssistantBlocksAppend | src/cyclebot/web.py:130-140 | block filtering keeps the original order |
| Relay.AssistantBlocksKeepAll | src/cyclebot/web.py:130-140 | an assistant message of text and tool-use blocks only is relayed block for block |
| Relay.UserBlocksAppend | src/cyclebot/web.py:160-171 | user block filtering keeps the original order |
| Relay.UnknownIsRelayed | src/cyclebot/web.py:118-119 | a message of an unrecognised kind is relayed as an `unknown` event, not dropped |
| Relay.HelloScenario | src/cyclebot/web.py:97-202 | prompt "hi" with id 1, an assistant reply and a result message: two notifications (turns 1 and 2) and a completed response with `turn_count` 2 and id 1 |
| Session.IdOf | src/cyclebot/web.py:30 | id validation keeps null, integers and strings, and rejects arrays and objects |
| Session.Validate | src/cyclebot/web.py:24-30 | an object validates exactly when `method` is a string, `jsonrpc` (if present) a string, `params` (if present) null or an object, and the id valid; the request then carries that method, id and params |
| Session.HandleFrame | src/cyclebot/web.py:65-91 | the messages one loop iteration sends and whether an exception escapes it are those `Dispatch` gives for the frame |
| Session.SessionLoop | src/cyclebot/web.py:60-94 | the messages the endpoint sends, how many frames it handles, and how it stops are exactly those of `RunSession` |
| Session.DispatchAnswersOnce | src/cyclebot/web.py:65-91 | one loop iteration either raises having sent nothing, or sends exactly one response, as its last message |
| Session.SessionStopsAtFirstEscape | src/cyclebot/web.py:65-94 | the loop stops exactly at the first frame whose handling raises, and handles all frames when none does |
| Session.SessionAnswersEveryFrame | src/cyclebot/web.py:65-94 | in a session that ends by disconnecting, every frame gets exactly one response |
| Session.SessionSequential | src/cyclebot/web.py:65-91 | frames are handled one after the other: what is sent for earlier frames precedes all output for later ones |
| Session.RunSessionStep | src/cyclebot/web.py:65-91 | one step of the loop: a raising frame stops it, any other frame's output is followed by the rest of the session |
| Session.SessionIgnoresAfterAbort | src/cyclebot/web.py:65-94 | after an exception escapes, later frames are never read |
| Session.ParseErrorContinues | src/cyclebot/web.py:71-80 | an object failing validation with a valid id gets one -32700 "Parse error" response echoing that id, and the loop goes on |
| Session.MethodNotFound | src/cyclebot/web.py:83-91 | a method other than `prompt` gets one -32601 "Method not found" response with the request's id, and no prompt starts |
| Session.MalformedFrameEndsSession | src/cyclebot/web.py:67-68 | a frame that is not JSON ends the connection with nothing sent |
| Session.PromptIsRelayed | src/cyclebot/web.py:83-85 | a valid `prompt` request is handled by the relay with the decoded request |
| PromptInputs.Kept | src/cyclebot/static/components/prompt-input.js:263 | a piece contributes at most one tool name, which is non-blank and trimmed |
| PromptInputs.KeepTools | src/cyclebot/static/components/prompt-input.js:263 | trim-and-filter yields only non-blank trimmed names, no more than there were pieces |
| PromptInputs.ToolList | src/cyclebot/static/components/prompt-input.js:263 | the tool list holds only non-blank trimmed names, no more than there are comma-separated pieces |
| PromptInputs.KeepToolsAppend | src/cyclebot/static/components/prompt-input.js:263 | trim-and-filter keeps the order of the pieces |
| PromptInputs.KeptName | src/cyclebot/static/components/prompt-input.js:263 | a piece that is already a tool name is kept as it is |
| PromptInputs.ToolListAppend | src/cyclebot/static/components/prompt-input.js:263 | the tool list of `a,b` is the tool list of `a` followed by that of `b`: every piece kept, trimmed, in order, empty ones dropped |
| PromptInputs.ToolListOfPiece | src/cyclebot/static/components/prompt-input.js:263 | a single piece yields its trimmed text, or nothing when it is blank |
| PromptInputs.KeepToolsOfNames | src/cyclebot/static/components/prompt-input.js:263 | pieces that are tool names all survive unchanged |
| PromptInputs.ToolListOfJoin | src/cyclebot/static/components/prompt-input.js:263 | a comma-joined list of tool names reads back as exactly that list |
| PromptInputs.JoinOfNamesTrimmed | src/cyclebot/static/components/prompt-input.js:246 | a comma-joined list of tool names is non-empty and survives the field's `trim()` |
| PromptInputs.SystemPromptKey | src/cyclebot/static/components/prompt-input.js:243-252 | `system_prompt` is set exactly when the trimmed field is non-empty, to the trimmed text |
| PromptInputs.MaxTurnsKey | src/cyclebot/static/components/prompt-input.js:244-256 | `max_turns` is set exactly when the field parses to a number greater than 0, to that number |
| PromptInputs.PermissionModeKey | src/cyclebot/static/components/prompt-input.js:245-260 | `permission_mode` is set exactly when the selected value is non-empty, to that value, untrimmed |
| PromptInputs.AllowedToolsKey | src/cyclebot/static/components/prompt-input.js:246-264 | `allowed_tools` is set exactly when the trimmed field is non-empty, to its tool list, which may still be empty |
| PromptInputs.GetOptions | src/cyclebot/static/components/prompt-input.js:242-267 | `null` exactly when no key is set; otherwise the record of the keys that are set |
| PromptInputs.GetOptionsIsNull | src/cyclebot/static/components/prompt-input.js:243-266 | `null` exactly when both text fields trim to nothing, max turns is not a positive number and no permission mode is selected |
| PromptInputs.ToolsFieldRoundTrip | src/cyclebot/static/components/prompt-input.js:246-264 | the allowed-tools field written for a well-formed record reads back as its tool list: the comma-joined names, a lone comma for the empty list, and no key for the empty field |
| PromptInputs.KeepToolsWithoutComma | src/cyclebot/static/components/prompt-input.js:263 | pieces of `split(',')` hold no comma, and neither do the tool names trimming keeps from them |
| PromptInputs.GetOptionsWellFormed | src/cyclebot/static/components/prompt-input.js:242-267 | every record `getOptions` returns is well formed: trimmed non-empty system prompt, positive max turns, non-empty permission mode, a possibly empty list of comma-free tool names |
| PromptInputs.ScalarFieldsRoundTrip | src/cyclebot/static/components/prompt-input.js:243-260 | a well-formed record's system prompt, max turns and permission mode, written into their fields, read back as the record's values |
| PromptInputs.GetOptionsOfKeys | src/cyclebot/static/components/prompt-input.js:248-266 | when every key reads back as a record's value, `getOptions` gives that record, or `null` for the empty one |
| PromptInputs.GetOptionsRoundTrip | src/cyclebot/static/components/prompt-input.js:242-267 | every well-formed record, which with `GetOptionsWellFormed` is every record `getOptions` can produce (the empty tool list included), written into the fields, is read back unchanged, and the empty record as `null` |
| PromptInputs.PromptInput.constructor | src/cyclebot/static/components/prompt-input.js:5-10 | a new element is enabled, with an empty prompt, max turns 10, permission mode "default" and the label "Run" |
| PromptInputs.PromptInput.HandleRun | src/cyclebot/static/components/prompt-input.js:216-233 | nothing is dispatched exactly when the trimmed prompt is empty or the element is disabled; otherwise the event carries the trimmed prompt and the `getOptions` result |
| PromptInputs.PromptInput.Clear | src/cyclebot/static/components/prompt-input.js:277-279 | the prompt becomes empty and nothing else changes |
| PromptInputs.PromptInput.SetDisabled | src/cyclebot/static/components/prompt-input.js:281-298 | `disabled`, the textarea and the three buttons follow the argument; the run label is "Running..." exactly when disabled; nothing else changes |
| ClientApp.JsIdOf | src/cyclebot/web.py:33-39 | a response always has an `id` member, numeric exactly for integer ids |
| ClientApp.Received | src/cyclebot/static/app.js:100 | after parsing, a notification has `method` "message", its params and no id; a response has no method, its id, and an `error` exactly when it failed |
| ClientApp.RouteOf | src/cyclebot/static/app.js:103-112 | a `message` with params goes to the stream handler; anything else with an id goes to the response handler; the rest is dropped |
| ClientApp.ServerFramesRoute | src/cyclebot/static/app.js:103-112 | every server notification is streamed and every server response is handled as a response |
| ClientApp.ToolsJson | src/cyclebot/static/app.js:95 | the tool list is sent as the same strings, in order |
| ClientApp.OptionsJson | src/cyclebot/static/app.js:86 | the sent options hold exactly the keys that were set, and are `{}` for `null` |
| ClientApp.OptionsJsonTruthy | src/cyclebot/web.py:108-113 | the server builds an options object exactly when some option was set |
| ClientApp.ClientRequestIsRelayed | src/cyclebot/static/app.js:80-95 | a request sent by the client validates, reaches the relay with its content, and is never answered by -32700, -32601 or -32602 |
| ClientApp.ReplyReachesItsRequest | src/cyclebot/static/app.js:98-112 | the server's reply to a client request is a run of streamed notifications followed by one response routed to `handleResponse` with the request's own numeric id |
| ClientApp.SelectMakesOptions | src/cyclebot/static/components/prompt-input.js:180-184 | with the select's values the permission mode is always set, so `getOptions` never returns `null` in the page |
| ClientApp.App.constructor | src/cyclebot/static/app.js:5-16 | a new application has no socket open, counter 0, nothing pending, nothing sent |
| ClientApp.App.OnOpen | src/cyclebot/static/app.js:36-39 | connected, and the input as `setDisabled(false)` leaves it: flag, textarea and buttons enabled, label "Run"; its prompt and option fields are outside the frame and keep their values |
| ClientApp.App.OnClose | src/cyclebot/static/app.js:41-47 | disconnected, and the input as `setDisabled(true)` leaves it: flag, textarea and buttons disabled, label "Running..."; its prompt and option fields keep their values |
| ClientApp.App.OnClear | src/cyclebot/static/app.js:23-25 | the chat log is emptied |
| ClientApp.App.HandleRun | src/cyclebot/static/app.js:64-96 | when not connected nothing changes; otherwise the counter goes up by one, the new value was not pending, it becomes pending for this prompt with no other entry changed, the request goes out with that id, and the input's prompt is cleared and the input left as `setDisabled(true)` leaves it, its option fields untouched |
| ClientApp.App.HandleStreamMessage | src/cyclebot/static/app.js:119-122 | the event is appended to the chat log |
| ClientApp.App.HandleResponse | src/cyclebot/static/app.js:124-148 | a response with a pending numeric id removes exactly that id, logs one error entry with the error's code, message and data if it failed, and leaves the input as `setDisabled(false)` does, its prompt and option fields untouched; any other response changes nothing |
| ClientApp.App.HandleMessage | src/cyclebot/static/app.js:98-117 | unparsable or dropped messages change nothing; streamed messages only extend the log; responses have the effects `HandleResponse` states, the input's prompt and option fields untouched |
| ClientApp.SentIdsDistinct | src/cyclebot/static/app.js:80 | request ids increase strictly in sending order, so they are unique |
| Chart.ChartFilename | src/cyclebot/chart.py:46-58 | the name starts with the given timestamp (the clock's when none is given), is matched by the timeframe's pattern, and is five characters longer than timestamp and timeframe together |
| Chart.NamingRoundTrip | src/cyclebot/chart.py:58 | a name built for a timeframe matches that timeframe, and its timestamp can be read back |
| Chart.NameFromParts | src/cyclebot/chart.py:58 | every name matching a timeframe is the name built from its own timestamp part |
| Chart.TimeframesDoNotCollide | src/cyclebot/chart.py:81 | two dash-free timeframes never match the same name |
| Chart.SuffixHasDash | src/cyclebot/chart.py:81 | when two suffixes of different length both end a name, the longer timeframe contains a dash |
| Chart.FifteenIsNotFive | src/cyclebot/chart.py:76-81 | a 15-minute chart never matches the 5-minute pattern |
| Chart.MatchingFiles | src/cyclebot/chart.py:81 | exactly the directory's names that match the timeframe |
| Chart.Greatest | src/cyclebot/chart.py:81-83 | the first of the names sorted in descending order is one of the names |
| Chart.GreatestIsMax | src/cyclebot/chart.py:81-83 | that name is the maximum in Python's string order |
| Chart.GreatestUnique | src/cyclebot/chart.py:81-83 | no other name is the maximum, so the choice does not depend on the listing order |
| Chart.NameOrderIsTimestampOrder | src/cyclebot/chart.py:56-58 | for one timeframe and timestamps of equal length, name order is timestamp order, so the greatest name is the latest chart |
| Chart.GetLatestCharts | src/cyclebot/chart.py:61-85 | the keys are exactly the requested timeframes (the four defaults when none are given) that have a matching file; each maps to the greatest matching name |
| Chart.SavedChartIsFound | src/cyclebot/chart.py:58-83 | a chart saved under a timeframe is found, and the chosen chart is not older than it |

## Left out

- JSON text: `json.loads`, `json.dumps`, `model_dump_json`, `JSON.parse` and `JSON.stringify`. Frames are JSON values or typed messages, and parse failure is a frame kind.
- The WebSocket and FastAPI plumbing: `accept`, `receive_text` and `send_text`, static file mounting, `get_index`, `main` and uvicorn. A connection is a trace of frames that ends where the peer disconnects.
- Concurrency: the server's `await` points and the browser's event loop. Each handler runs to completion.
- The agent SDK's `query` stream and the `ClaudeCodeOptions` constructor. The stream is a given trace, and the constructor's outcome is a parameter.
- Float payloads: `total_cost_usd` and float content are carried as values and never interpreted.
- Session.Validate: for the JSON values of the model, acceptance follows the validator's lax rules (a string field takes strings only). The text of its error message is not modelled; it is the opaque `ValidationDetail`.
- Session.IdOf: follows the validator's lax rules for the JSON values of the model. `NaN` and `Infinity`, which `json.loads` also accepts and the id validator rejects, are not JSON values of the model.
- PromptInputs.GetOptions: `parseInt` is an abstract partial function, not JavaScript's digit parser.
- Text.Trim: strings are sequences of Unicode scalar values, not JavaScript's UTF-16 code units.
- The `max_turns` input's `min`/`max` attributes, which the browser does not enforce on the value read.
- ClientApp.App.HandleRun: `alert`, the text sent on the socket and the status element are not modelled. `sent` records the request as a value, and `RequestFrame` gives the JSON the server decodes from it.
- ClientApp.App.OnClose: the three-second reconnect timer and the new socket it opens are not modelled.
- `onerror`, `console` logging, `updateStatus` and the chat log's rendering (chat-log.js is not part of this model). Chat log entries are values.
- `handleClear` in the prompt input only dispatches a `clear` event. `ClientApp.App.OnClear` models what that event does.
- Chart.Matches: glob metacharacters in a timeframe, directories that match the pattern, and `Path` prefixes are not modelled. A match is a file name suffix test.
- Chart.ChartFilename: the clock (`get_chart_timestamp`) and the chart directory (`get_chart_directory`, `mkdir`, `glob`) are inputs. The timestamp format is not derived from a date.
- src/cyclebot/chart_capture.py, src/cyclebot/openrouter_hello.py and src/cyclebot/hello.py are not part of this model. They are browser automation, HTTP calls and a printing demo.
