/** The browser application: it turns a `run` event into a JSON-RPC request with a
    fresh id, remembers the request until the response carrying that id comes back,
    appends streamed notifications to the chat log, and keeps the prompt input
    disabled while a request is outstanding. */
module ClientApp {
  import opened Wrappers
  import opened Wire
  import opened Relay
  import opened Session
  import opened PromptInputs

  /** The `id` member of a parsed message as JavaScript sees it. */
  datatype JsId = Undefined | Null | Num(n: int) | Str(s: string)

  /** A server frame after `JSON.parse`: the members `handleMessage` and
      `handleResponse` look at. */
  datatype ClientMsg = ClientMsg(methodName: Option<string>, params: Option<Event>, id: JsId, error: Option<ErrorObject>)

  /** Where `handleMessage` sends a parsed message. */
  datatype Route = ToStream | ToResponse | Dropped

  /** A response's `id` as serialised by the server: always present, `null` when absent. */
  function JsIdOf(id: Option<Id>): (r: JsId)
    ensures r != Undefined
    ensures r.Num? <==> id.Some? && id.value.IntId?
  {
    match id
    case None => Null
    case Some(IntId(n)) => Num(n)
    case Some(StrId(s)) => Str(s)
  }

  /** What the client reads from a frame the server sends. A notification has a
      `method` and no `id`; a response has no `method`, always has an `id` and has an
      `error` exactly when it reports a failure. */
  function Received(w: WireMsg): (m: ClientMsg)
    ensures w.Notification? ==> m.methodName == Some("message") && m.params == Some(w.params) && m.id == Undefined
    ensures w.Response? ==> m.methodName.None? && m.id == JsIdOf(w.id)
    ensures w.Response? ==> (m.error.Some? <==> w.body.Failed?) && (m.error.Some? ==> m.error.value == w.body.error)
  {
    match w
    case Notification(e) => ClientMsg(Some("message"), Some(e), Undefined, None)
    case Response(body, id) => ClientMsg(None, None, JsIdOf(id), if body.Failed? then Some(body.error) else None)
  }

  /** The two tests of `handleMessage`: a `message` notification with params goes to the
      stream handler, anything else with an `id` to the response handler. */
  function RouteOf(m: ClientMsg): (r: Route)
    ensures r == ToStream <==> m.methodName == Some("message") && m.params.Some?
    ensures r == Dropped <==> !(m.methodName == Some("message") && m.params.Some?) && m.id == Undefined
  {
    if m.methodName == Some("message") && m.params.Some? then ToStream
    else if m.id != Undefined then ToResponse
    else Dropped
  }

  /** Every notification the server sends is streamed and every response is handled
      as a response; the client drops none of them. */
  lemma ServerFramesRoute(w: WireMsg)
    ensures RouteOf(Received(w)) == if w.Notification? then ToStream else ToResponse
  {
  }

  /** The request `handleRun` sends: the prompt, the options record (or `{}`) and
      the id. */
  datatype PromptRequest = PromptRequest(content: string, options: Option<Options>, id: nat)

  function ToolsJson(ts: seq<string>): (r: seq<Json>)
    ensures |r| == |ts|
    ensures forall k :: 0 <= k < |r| ==> r[k] == JStr(ts[k])
  {
    if ts == [] then [] else [JStr(ts[0])] + ToolsJson(ts[1..])
  }

  /** `JSON.stringify` of the options record, or of `{}` for `options || {}`: only
      the keys that were set appear. */
  function OptionsJson(o: Option<Options>): (r: Json)
    ensures r.JObj?
    ensures o.None? ==> r.fields == map[]
    ensures o.Some? ==>
      && ("system_prompt" in r.fields <==> o.value.systemPrompt.Some?)
      && ("max_turns" in r.fields <==> o.value.maxTurns.Some?)
      && ("permission_mode" in r.fields <==> o.value.permissionMode.Some?)
      && ("allowed_tools" in r.fields <==> o.value.allowedTools.Some?)
      && r.fields.Keys <= {"system_prompt", "max_turns", "permission_mode", "allowed_tools"}
  {
    match o
    case None => JObj(map[])
    case Some(opts) =>
      var m0: map<string, Json> := map[];
      var m1 := if opts.systemPrompt.Some? then m0["system_prompt" := JStr(opts.systemPrompt.value)] else m0;
      var m2 := if opts.maxTurns.Some? then m1["max_turns" := JInt(opts.maxTurns.value)] else m1;
      var m3 := if opts.permissionMode.Some? then m2["permission_mode" := JStr(opts.permissionMode.value)] else m2;
      var m4 := if opts.allowedTools.Some? then m3["allowed_tools" := JArr(ToolsJson(opts.allowedTools.value))] else m3;
      JObj(m4)
  }

  /** The server builds an options object from what the client sends exactly when
      some option was set. */
  lemma OptionsJsonTruthy(o: Option<Options>)
    ensures Truthy(OptionsJson(o)) <==> o.Some? && o.value != NoOptions
  {
    var r := OptionsJson(o);
    if o.Some? && o.value != NoOptions {
      if o.value.systemPrompt.Some? {
        assert "system_prompt" in r.fields;
      } else if o.value.maxTurns.Some? {
        assert "max_turns" in r.fields;
      } else if o.value.permissionMode.Some? {
        assert "permission_mode" in r.fields;
      } else {
        assert "allowed_tools" in r.fields;
      }
    }
  }

  /** The frame `handleRun` sends, as the server decodes it. */
  function RequestFrame(r: PromptRequest): Json {
    JObj(map[
      "jsonrpc" := JStr("2.0"),
      "method" := JStr("prompt"),
      "params" := JObj(map["content" := JStr(r.content), "options" := OptionsJson(r.options)]),
      "id" := JInt(r.id)])
  }

  /** The request the server validates from that frame. */
  function ServerView(r: PromptRequest): Request {
    Request("2.0", "prompt", Some(map["content" := JStr(r.content), "options" := OptionsJson(r.options)]), Some(IntId(r.id)))
  }

  /** A request sent by the client passes validation, is dispatched to the prompt
      handler with its content present, and none of the protocol errors (-32700,
      -32601, -32602) can answer it. */
  lemma ClientRequestIsRelayed(r: PromptRequest, env: PromptEnv)
    ensures Dispatch(Decoded(RequestFrame(r)), env) == Relayed(ServerView(r), env)
    ensures HasContent(ServerView(r))
    ensures OptionsBuilt(ServerView(r).params.value, env) <==> r.options.None? || r.options.value == NoOptions || env.optionsAccepted
  {
    var fields := RequestFrame(r).fields;
    assert Validate(fields) == Some(ServerView(r));
    OptionsJsonTruthy(r.options);
  }

  /** Correlation of one request: unless the options are refused, the reply to a
      client request is a run of notifications that the client streams, followed by
      one response that the client hands to `handleResponse` with the request's own
      id. */
  lemma ReplyReachesItsRequest(r: PromptRequest, env: PromptEnv)
    requires r.options.None? || env.optionsAccepted
    ensures var reply := Dispatch(Decoded(RequestFrame(r)), env);
      && !reply.escaped
      && |reply.sent| == |env.trace.items| + 1
      && (forall i :: 0 <= i < |reply.sent| - 1 ==> RouteOf(Received(reply.sent[i])) == ToStream)
      && RouteOf(Received(reply.sent[|reply.sent| - 1])) == ToResponse
      && Received(reply.sent[|reply.sent| - 1]).id == Num(r.id)
  {
    ClientRequestIsRelayed(r, env);
    RelayStreams(ServerView(r), env);
    var reply := Dispatch(Decoded(RequestFrame(r)), env);
    forall i | 0 <= i < |reply.sent| - 1
      ensures RouteOf(Received(reply.sent[i])) == ToStream
    {
      ServerFramesRoute(reply.sent[i]);
    }
  }

  /** The permission mode is a select whose options all have a non-empty value, so in
      the running page `getOptions` always yields a record, never `null`. */
  lemma SelectMakesOptions(systemPromptField: string, maxTurnsField: string, permissionModeField: string,
                           allowedToolsField: string, parseInt: string -> Option<int>)
    requires permissionModeField in {"default", "enabled", "disabled"}
    ensures var o := GetOptions(systemPromptField, maxTurnsField, permissionModeField, allowedToolsField, parseInt);
      o.Some? && o.value.permissionMode == Some(permissionModeField)
  {
  }

  /** What `pendingRequests` remembers of a request. */
  datatype PendingRequest = PendingRequest(content: string, timestamp: int)

  /** An entry of the chat log: a prompt, a streamed event, or an error response. */
  datatype ChatEntry = PromptEntry(content: string) | MessageEntry(event: Event) | ErrorEntry(error: ErrorObject)

  /** The application object. `connected` stands for a socket in the OPEN state; the
      requests written to the socket are recorded in `sent`. */
  class App {
    var connected: bool
    var requestId: nat
    var pendingRequests: map<int, PendingRequest>
    var sent: seq<PromptRequest>
    var chatLog: seq<ChatEntry>
    const promptInput: PromptInput

    /** Ids are handed out 1, 2, 3, ... in the order the requests are sent, and only
        ids already handed out are pending, each for the request sent with it. */
    predicate Valid()
      reads this
    {
      && |sent| == requestId
      && (forall i :: 0 <= i < |sent| ==> sent[i].id == i + 1)
      && (forall k :: k in pendingRequests ==> 1 <= k <= requestId && pendingRequests[k].content == sent[k - 1].content)
    }

    /** A new application: no socket open yet, no request sent, nothing pending. */
    constructor (input: PromptInput)
      ensures Valid()
      ensures promptInput == input
      ensures !connected && requestId == 0 && pendingRequests == map[] && sent == [] && chatLog == []
    {
      promptInput := input;
      connected := false;
      requestId := 0;
      pendingRequests := map[];
      sent := [];
      chatLog := [];
    }

    /** The socket's `onopen`: the input is enabled. */
    method OnOpen()
      modifies this`connected
      modifies promptInput`disabled, promptInput`textareaDisabled, promptInput`runDisabled, promptInput`clearDisabled, promptInput`optionsDisabled, promptInput`runLabel
      ensures connected
      ensures promptInput.ShowsDisabled(false)
    {
      connected := true;
      promptInput.SetDisabled(false);
    }

    /** The socket's `onclose`: the input is disabled. Requests still pending stay
        pending; the reconnect timer is outside the model. */
    method OnClose()
      modifies this`connected
      modifies promptInput`disabled, promptInput`textareaDisabled, promptInput`runDisabled, promptInput`clearDisabled, promptInput`optionsDisabled, promptInput`runLabel
      ensures !connected
      ensures promptInput.ShowsDisabled(true)
    {
      connected := false;
      promptInput.SetDisabled(true);
    }

    /** The `clear` event: the chat log is emptied. */
    method OnClear()
      modifies this`chatLog
      ensures chatLog == []
    {
      chatLog := [];
    }

    /** `handleRun`: with no open socket nothing happens (the alert is outside the
        model). Otherwise the prompt is logged, the input cleared and disabled, and the
        request goes out with the next id, which was not pending before and is pending
        now. */
    method HandleRun(content: string, options: Option<Options>, now: int)
      requires Valid()
      modifies this, promptInput`prompt
      modifies promptInput`disabled, promptInput`textareaDisabled, promptInput`runDisabled, promptInput`clearDisabled, promptInput`optionsDisabled, promptInput`runLabel
      ensures Valid()
      ensures connected == old(connected)
      ensures !old(connected) ==>
        && requestId == old(requestId) && sent == old(sent) && pendingRequests == old(pendingRequests)
        && chatLog == old(chatLog) && unchanged(promptInput)
      ensures old(connected) ==>
        && requestId == old(requestId) + 1
        && requestId !in old(pendingRequests)
        && sent == old(sent) + [PromptRequest(content, options, requestId)]
        && pendingRequests == old(pendingRequests)[requestId := PendingRequest(content, now)]
        && chatLog == old(chatLog) + [PromptEntry(content)]
        && promptInput.prompt == "" && promptInput.ShowsDisabled(true)
    {
      if !connected {
        return;
      }
      chatLog := chatLog + [PromptEntry(content)];
      promptInput.Clear();
      promptInput.SetDisabled(true);
      requestId := requestId + 1;
      var id := requestId;
      pendingRequests := pendingRequests[id := PendingRequest(content, now)];
      sent := sent + [PromptRequest(content, options, id)];
    }

    /** `handleStreamMessage`: the event is appended to the chat log. */
    method HandleStreamMessage(e: Event)
      modifies this`chatLog
      ensures chatLog == old(chatLog) + [MessageEntry(e)]
    {
      chatLog := chatLog + [MessageEntry(e)];
    }

    /** `handleResponse`: a response for a pending request (looked up by its numeric
        id) takes it off the pending map, logs its error if it has one, and enables the
        input again. A response with any other id changes nothing. */
    method HandleResponse(m: ClientMsg)
      requires Valid()
      modifies this`pendingRequests, this`chatLog
      modifies promptInput`disabled, promptInput`textareaDisabled, promptInput`runDisabled, promptInput`clearDisabled, promptInput`optionsDisabled, promptInput`runLabel
      ensures Valid()
      ensures !(m.id.Num? && m.id.n in old(pendingRequests)) ==>
        pendingRequests == old(pendingRequests) && chatLog == old(chatLog) && unchanged(promptInput)
      ensures m.id.Num? && m.id.n in old(pendingRequests) ==>
        && pendingRequests == old(pendingRequests) - {m.id.n}
        && chatLog == old(chatLog) + (if m.error.Some? then [ErrorEntry(m.error.value)] else [])
        && promptInput.ShowsDisabled(false)
    {
      if !(m.id.Num? && m.id.n in pendingRequests) {
        return;
      }
      pendingRequests := pendingRequests - {m.id.n};
      if m.error.Some? {
        chatLog := chatLog + [ErrorEntry(m.error.value)];
      }
      promptInput.SetDisabled(false);
    }

    /** `handleMessage`: `None` is text that does not parse to an object, which is
        ignored; a parsed message goes where RouteOf says. */
    method HandleMessage(m: Option<ClientMsg>)
      requires Valid()
      modifies this`pendingRequests, this`chatLog
      modifies promptInput`disabled, promptInput`textareaDisabled, promptInput`runDisabled, promptInput`clearDisabled, promptInput`optionsDisabled, promptInput`runLabel
      ensures Valid()
      ensures (m.None? || RouteOf(m.value) == Dropped) ==>
        pendingRequests == old(pendingRequests) && chatLog == old(chatLog) && unchanged(promptInput)
      ensures m.Some? && RouteOf(m.value) == ToStream ==>
        && chatLog == old(chatLog) + [MessageEntry(m.value.params.value)]
        && pendingRequests == old(pendingRequests) && unchanged(promptInput)
      ensures m.Some? && RouteOf(m.value) == ToResponse && m.value.id.Num? && m.value.id.n in old(pendingRequests) ==>
        && pendingRequests == old(pendingRequests) - {m.value.id.n}
        && chatLog == old(chatLog) + (if m.value.error.Some? then [ErrorEntry(m.value.error.value)] else [])
        && promptInput.ShowsDisabled(false)
      ensures m.Some? && RouteOf(m.value) == ToResponse && !(m.value.id.Num? && m.value.id.n in old(pendingRequests)) ==>
        pendingRequests == old(pendingRequests) && chatLog == old(chatLog) && unchanged(promptInput)
    {
      if m.None? {
        return;
      }
      var message := m.value;
      if message.methodName == Some("message") && message.params.Some? {
        HandleStreamMessage(message.params.value);
        return;
      }
      if message.id != Undefined {
        HandleResponse(message);
        return;
      }
    }
  }

  /** Ids of the requests sent so far are pairwise distinct, so a response's id names
      at most one request. */
  lemma SentIdsDistinct(app: App, i: nat, j: nat)
    requires app.Valid()
    requires i < j < |app.sent|
    ensures app.sent[i].id < app.sent[j].id
  {
  }
}
