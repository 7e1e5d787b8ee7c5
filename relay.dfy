/** The relay engine of `handle_prompt`: one `prompt` request is driven through the
    agent's message stream, each message becomes one `message` notification, and the
    call ends with exactly one response. The agent (the SDK's `query`) is an opaque
    producer: a finite trace of typed messages that either runs out or raises after
    its last item. */
module Relay {
  import opened Wrappers
  import opened Wire

  /** A content block as the SDK yields it. */
  datatype SdkBlock =
    | TextBlock(text: string)
    | ToolUseBlock(id: string, name: string, input: Json)
    | ToolResultBlock(toolUseId: string, content: Json, isError: Json)
    | OtherBlock            // a block of any other class, such as a thinking block

  /** A message as the SDK yields it. The cost is a float the relay only carries. */
  datatype SdkMessage =
    | AssistantMessage(content: seq<SdkBlock>)
    | UserMessage(content: seq<SdkBlock>)
    | SystemMessage(subtype: string, data: map<string, Json>)
    | ResultMessage(durationMs: int, durationApiMs: int, isError: bool, numTurns: int, totalCostUsd: Json)
    | OtherMessage          // an object of none of the four recognised classes

  /** How the producer's stream stops: it runs out, or it raises an exception whose
      text is `description` once all of `items` have been yielded. */
  datatype StreamEnd = Exhausted | Raised(description: string)

  datatype Trace = Trace(items: seq<SdkMessage>, end: StreamEnd)

  /** What the environment does for one prompt: whether `ClaudeCodeOptions(**options)`
      accepts a non-empty options dict, and what the stream then yields. */
  datatype PromptEnv = PromptEnv(optionsAccepted: bool, trace: Trace)

  /** The sends made by one call, and whether an exception escaped the call. */
  datatype Reply = Reply(sent: seq<WireMsg>, escaped: bool)

  const InvalidParamsError := ErrorObject(INVALID_PARAMS, "Invalid params: 'content' required", NoData)

  /** `params` is present, non-empty and holds `content`. */
  predicate HasContent(req: Request) {
    req.params.Some? && "content" in req.params.value
  }

  /** `params.get("options", {})` */
  function OptionsField(params: map<string, Json>): Json {
    if "options" in params then params["options"] else JObj(map[])
  }

  /** The options step raises nothing: either the options are falsy and no options
      object is built, or they are a dict that `ClaudeCodeOptions` accepts. Any other
      truthy value cannot be unpacked with `**` and raises. */
  predicate OptionsBuilt(params: map<string, Json>, env: PromptEnv) {
    var options := OptionsField(params);
    !Truthy(options) || (options.JObj? && env.optionsAccepted)
  }

  /** Assistant and result messages are turns; the others are not. */
  predicate CountsTurn(m: SdkMessage) {
    m.AssistantMessage? || m.ResultMessage?
  }

  /** The turn counter after the messages `ms`, starting from 0. */
  function TurnsIn(ms: seq<SdkMessage>): nat {
    if ms == [] then 0
    else TurnsIn(ms[..|ms| - 1]) + (if CountsTurn(ms[|ms| - 1]) then 1 else 0)
  }

  function AssistantBlock(b: SdkBlock): seq<OutBlock> {
    match b
    case TextBlock(text) => [TextOut(text)]
    case ToolUseBlock(_, name, input) => [ToolUseOut(name, input)]
    case _ => []
  }

  /** The content of an assistant notification: the text and tool-use blocks. */
  function AssistantBlocks(bs: seq<SdkBlock>): (r: seq<OutBlock>)
    ensures |r| <= |bs|
    ensures forall k :: 0 <= k < |r| ==> r[k].TextOut? || r[k].ToolUseOut?
  {
    if bs == [] then [] else AssistantBlocks(bs[..|bs| - 1]) + AssistantBlock(bs[|bs| - 1])
  }

  function UserBlock(b: SdkBlock): seq<OutBlock> {
    match b
    case TextBlock(text) => [TextOut(text)]
    case ToolResultBlock(_, content, isError) => [ToolResultOut(content, isError)]
    case _ => []
  }

  /** The content of a user notification: the text and tool-result blocks. */
  function UserBlocks(bs: seq<SdkBlock>): (r: seq<OutBlock>)
    ensures |r| <= |bs|
    ensures forall k :: 0 <= k < |r| ==> r[k].TextOut? || r[k].ToolResultOut?
  {
    if bs == [] then [] else UserBlocks(bs[..|bs| - 1]) + UserBlock(bs[|bs| - 1])
  }

  /** The event a message is relayed as, given the turn counter after it. */
  function ToEvent(m: SdkMessage, turn: nat): Event {
    match m
    case AssistantMessage(content) => AssistantEvent(turn, AssistantBlocks(content))
    case SystemMessage(_, data) =>
      SystemEvent(Get(data, "model"), Get(data, "session_id"), Get(data, "cwd"), Get(data, "tools"), Get(data, "permissionMode"))
    case UserMessage(content) => UserEvent(UserBlocks(content))
    case ResultMessage(durationMs, durationApiMs, isError, numTurns, totalCostUsd) =>
      ResultEvent(numTurns, durationApiMs, durationMs, isError, totalCostUsd)
    case OtherMessage => UnknownEvent
  }

  /** The notifications for the messages `ms`, in producer order. */
  function Notifications(ms: seq<SdkMessage>): seq<WireMsg> {
    if ms == [] then []
    else Notifications(ms[..|ms| - 1]) + [Notification(ToEvent(ms[|ms| - 1], TurnsIn(ms)))]
  }

  /** The terminal response body once the stream has stopped. */
  function FinalBody(t: Trace): ResponseBody {
    match t.end
    case Exhausted => Completed(TurnsIn(t.items))
    case Raised(description) => Failed(ErrorObject(INTERNAL_ERROR, "Internal error", Detail(description)))
  }

  /** Specification of one `handle_prompt` call. */
  function Relayed(req: Request, env: PromptEnv): Reply {
    if !HasContent(req) then Reply([Response(Failed(InvalidParamsError), req.id)], false)
    else if !OptionsBuilt(req.params.value, env) then Reply([], true)
    else Reply(Notifications(env.trace.items) + [Response(FinalBody(env.trace), req.id)], false)
  }

  /** The content of an assistant message as relayed: its text and tool-use blocks,
      in order. */
  method AssistantContent(blocks: seq<SdkBlock>) returns (content: seq<OutBlock>)
    ensures content == AssistantBlocks(blocks)
  {
    content := [];
    for j := 0 to |blocks|
      invariant content == AssistantBlocks(blocks[..j])
    {
      assert blocks[..j + 1][..j] == blocks[..j];
      match blocks[j] {
        case TextBlock(text) => content := content + [TextOut(text)];
        case ToolUseBlock(_, name, input) => content := content + [ToolUseOut(name, input)];
        case _ =>
      }
    }
    assert blocks[..|blocks|] == blocks;
  }

  /** The content of a user message as relayed: its text and tool-result blocks, in
      order. */
  method UserContent(blocks: seq<SdkBlock>) returns (content: seq<OutBlock>)
    ensures content == UserBlocks(blocks)
  {
    content := [];
    for j := 0 to |blocks|
      invariant content == UserBlocks(blocks[..j])
    {
      assert blocks[..j + 1][..j] == blocks[..j];
      match blocks[j] {
        case TextBlock(text) => content := content + [TextOut(text)];
        case ToolResultBlock(_, c, isError) => content := content + [ToolResultOut(c, isError)];
        case _ =>
      }
    }
    assert blocks[..|blocks|] == blocks;
  }

  /** One message of the stream: the turn counter after it, and the event it is
      relayed as. It follows `ToEvent`, the function that specifies it, case for
      case. */
  method RelayMessage(m: SdkMessage, turnCount: nat) returns (turn: nat, msgData: Event)
    ensures turn == turnCount + (if CountsTurn(m) then 1 else 0)
    ensures msgData == ToEvent(m, turn)
  {
    turn, msgData := turnCount, UnknownEvent;
    match m {
      case AssistantMessage(blocks) =>
        turn := turnCount + 1;
        var content := AssistantContent(blocks);
        msgData := AssistantEvent(turn, content);
      case SystemMessage(_, data) =>
        msgData := SystemEvent(Get(data, "model"), Get(data, "session_id"), Get(data, "cwd"),
                               Get(data, "tools"), Get(data, "permissionMode"));
      case UserMessage(blocks) =>
        var content := UserContent(blocks);
        msgData := UserEvent(content);
      case ResultMessage(durationMs, durationApiMs, isError, numTurns, totalCostUsd) =>
        turn := turnCount + 1;
        msgData := ResultEvent(numTurns, durationApiMs, durationMs, isError, totalCostUsd);
      case OtherMessage =>
    }
  }

  /** `handle_prompt`: validates the params, builds the options, then relays the
      stream one message at a time, counting turns, and sends the final response. */
  method HandlePrompt(req: Request, env: PromptEnv) returns (sent: seq<WireMsg>, escaped: bool)
    ensures Reply(sent, escaped) == Relayed(req, env)
  {
    if req.params.None? || "content" !in req.params.value {
      sent := [Response(Failed(InvalidParamsError), req.id)];
      escaped := false;
      return;
    }
    var optionsDict := OptionsField(req.params.value);
    if Truthy(optionsDict) && !(optionsDict.JObj? && env.optionsAccepted) {
      // ClaudeCodeOptions(**options) raises before the guarded block: nothing is sent.
      sent, escaped := [], true;
      return;
    }
    var items := env.trace.items;
    var turnCount := 0;
    sent, escaped := [], false;
    for i := 0 to |items|
      invariant turnCount == TurnsIn(items[..i])
      invariant sent == Notifications(items[..i])
    {
      assert items[..i + 1][..i] == items[..i];
      var msgData;
      turnCount, msgData := RelayMessage(items[i], turnCount);
      sent := sent + [Notification(msgData)];
    }
    assert items[..|items|] == items;
    match env.trace.end {
      case Exhausted =>
        sent := sent + [Response(Completed(turnCount), req.id)];
      case Raised(description) =>
        sent := sent + [Response(Failed(ErrorObject(INTERNAL_ERROR, "Internal error", Detail(description))), req.id)];
    }
  }

  // ---------------------------------------------------------------------------
  // Properties of the relay

  /** The i-th notification relays the i-th message, tagged with its kind, with the
      turn counter as it stands just after that message. */
  lemma {:induction false} NotificationsShape(ms: seq<SdkMessage>)
    ensures |Notifications(ms)| == |ms|
    ensures forall i :: 0 <= i < |ms| ==> Notifications(ms)[i] == Notification(ToEvent(ms[i], TurnsIn(ms[..i + 1])))
  {
    if ms != [] {
      var init := ms[..|ms| - 1];
      NotificationsShape(init);
      forall i | 0 <= i < |ms|
        ensures Notifications(ms)[i] == Notification(ToEvent(ms[i], TurnsIn(ms[..i + 1])))
      {
        if i < |init| {
          assert init[..i + 1] == ms[..i + 1];
        } else {
          assert ms[..i + 1] == ms;
        }
      }
    }
  }

  lemma {:induction false} NotificationsAreNotResponses(ms: seq<SdkMessage>)
    ensures ResponseCount(Notifications(ms)) == 0
  {
    if ms != [] {
      NotificationsAreNotResponses(ms[..|ms| - 1]);
      ResponseCountAppend(Notifications(ms[..|ms| - 1]), [Notification(ToEvent(ms[|ms| - 1], TurnsIn(ms)))]);
    }
  }

  /** A prompt that passes validation gets one notification per producer message, in
      producer order, and then the final response with the request's id: the turn
      count when the stream runs out, error -32000 with the exception's text when it
      raises. Nothing escapes the call. */
  lemma RelayStreams(req: Request, env: PromptEnv)
    requires HasContent(req) && OptionsBuilt(req.params.value, env)
    ensures var r := Relayed(req, env); var items := env.trace.items;
      && !r.escaped
      && |r.sent| == |items| + 1
      && (forall i :: 0 <= i < |items| ==> r.sent[i] == Notification(ToEvent(items[i], TurnsIn(items[..i + 1]))))
      && r.sent[|items|].Response? && r.sent[|items|].id == req.id
      && (env.trace.end.Exhausted? ==> r.sent[|items|].body == Completed(TurnsIn(items)))
      && (env.trace.end.Raised? ==>
            r.sent[|items|].body == Failed(ErrorObject(-32000, "Internal error", Detail(env.trace.end.description))))
  {
    NotificationsShape(env.trace.items);
  }

  /** Every call that does not raise sends exactly one response, as its last message,
      echoing the request's id; a call that raises has sent nothing. */
  lemma RelayAnswersOnce(req: Request, env: PromptEnv)
    ensures var r := Relayed(req, env);
      && (r.escaped ==> r.sent == [])
      && (!r.escaped ==> ResponseCount(r.sent) == 1 && r.sent != []
                         && r.sent[|r.sent| - 1].Response? && r.sent[|r.sent| - 1].id == req.id)
  {
    var r := Relayed(req, env);
    if HasContent(req) && OptionsBuilt(req.params.value, env) {
      NotificationsAreNotResponses(env.trace.items);
      ResponseCountAppend(Notifications(env.trace.items), [Response(FinalBody(env.trace), req.id)]);
    } else if !HasContent(req) {
      assert ResponseCount(r.sent) == ResponseCount([]) + 1;
    }
  }

  /** Without `content` the answer is one -32602 error with the request's id, and the
      producer is never consulted. */
  lemma RelayMissingContent(req: Request, env: PromptEnv, other: PromptEnv)
    requires !HasContent(req)
    ensures Relayed(req, env) == Relayed(req, other)
    ensures Relayed(req, env) == Reply([Response(Failed(ErrorObject(-32602, "Invalid params: 'content' required", NoData)), req.id)], false)
  {
  }

  /** The turn counter adds up over consecutive stretches of the stream. */
  lemma {:induction false} TurnsInAppend(a: seq<SdkMessage>, b: seq<SdkMessage>)
    ensures TurnsIn(a + b) == TurnsIn(a) + TurnsIn(b)
  {
    if b != [] {
      assert (a + b)[..|a + b| - 1] == a + b[..|b| - 1];
      TurnsInAppend(a, b[..|b| - 1]);
    } else {
      assert a + b == a;
    }
  }

  /** System, user and unrecognised messages leave the counter alone; assistant and
      result messages add exactly one. */
  lemma TurnsInStep(ms: seq<SdkMessage>, m: SdkMessage)
    ensures TurnsIn(ms + [m]) == TurnsIn(ms) + (if m.AssistantMessage? || m.ResultMessage? then 1 else 0)
  {
    assert (ms + [m])[..|ms|] == ms;
  }

  /** The turn numbers carried by successive turn messages are 1, 2, ...: each is at
      least 1 and they strictly increase, so no two notifications share a turn. */
  lemma TurnNumbersIncrease(ms: seq<SdkMessage>, i: nat, j: nat)
    requires i < j < |ms| && CountsTurn(ms[i]) && CountsTurn(ms[j])
    ensures 1 <= TurnsIn(ms[..i + 1]) < TurnsIn(ms[..j + 1])
  {
    assert ms[..i + 1] == ms[..i] + [ms[i]];
    TurnsInStep(ms[..i], ms[i]);
    assert ms[..j + 1] == ms[..i + 1] + ms[i + 1..j + 1];
    TurnsInAppend(ms[..i + 1], ms[i + 1..j + 1]);
    var mid := ms[i + 1..j + 1];
    assert mid[|mid| - 1] == ms[j];
  }

  /** Block filtering keeps the original order: it distributes over concatenation,
      so the forwarded blocks of any split of the content are those of each part. */
  lemma {:induction false} AssistantBlocksAppend(a: seq<SdkBlock>, b: seq<SdkBlock>)
    ensures AssistantBlocks(a + b) == AssistantBlocks(a) + AssistantBlocks(b)
  {
    if b != [] {
      assert (a + b)[..|a + b| - 1] == a + b[..|b| - 1];
      AssistantBlocksAppend(a, b[..|b| - 1]);
    } else {
      assert a + b == a;
    }
  }

  /** An assistant message of text and tool-use blocks only is relayed block for block. */
  lemma {:induction false} AssistantBlocksKeepAll(bs: seq<SdkBlock>)
    requires forall k :: 0 <= k < |bs| ==> bs[k].TextBlock? || bs[k].ToolUseBlock?
    ensures |AssistantBlocks(bs)| == |bs|
    ensures forall k :: 0 <= k < |bs| ==> AssistantBlocks(bs)[k] == AssistantBlock(bs[k])[0]
  {
    if bs != [] {
      AssistantBlocksKeepAll(bs[..|bs| - 1]);
    }
  }

  lemma {:induction false} UserBlocksAppend(a: seq<SdkBlock>, b: seq<SdkBlock>)
    ensures UserBlocks(a + b) == UserBlocks(a) + UserBlocks(b)
  {
    if b != [] {
      assert (a + b)[..|a + b| - 1] == a + b[..|b| - 1];
      UserBlocksAppend(a, b[..|b| - 1]);
    } else {
      assert a + b == a;
    }
  }

  /** A producer message of an unrecognised class is relayed, not dropped, as an
      `unknown` event with no data. */
  lemma UnknownIsRelayed(ms: seq<SdkMessage>, i: nat)
    requires i < |ms| && ms[i].OtherMessage?
    ensures |Notifications(ms)| == |ms|
    ensures Notifications(ms)[i] == Notification(UnknownEvent)
    ensures TypeTag(UnknownEvent) == "unknown"
  {
    NotificationsShape(ms);
  }

  /** The worked example: content "hi", id 1, an assistant reply and a result. */
  lemma HelloScenario()
    ensures var req := Request("2.0", "prompt", Some(map["content" := JStr("hi")]), Some(IntId(1)));
      var ms := [AssistantMessage([TextBlock("hi!")]), ResultMessage(1200, 900, false, 1, JFloat(0.01))];
      Relayed(req, PromptEnv(true, Trace(ms, Exhausted))).sent ==
        [ Notification(AssistantEvent(1, [TextOut("hi!")])),
          Notification(ResultEvent(1, 900, 1200, false, JFloat(0.01))),
          Response(Completed(2), Some(IntId(1))) ]
  {
    var req := Request("2.0", "prompt", Some(map["content" := JStr("hi")]), Some(IntId(1)));
    var ms := [AssistantMessage([TextBlock("hi!")]), ResultMessage(1200, 900, false, 1, JFloat(0.01))];
    var env := PromptEnv(true, Trace(ms, Exhausted));
    RelayStreams(req, env);
    assert ms[..1] == [] + [ms[0]];
    TurnsInStep([], ms[0]);
    assert ms[..2] == ms == ms[..1] + [ms[1]];
    TurnsInStep(ms[..1], ms[1]);
    assert [TextBlock("hi!")] == [] + [TextBlock("hi!")];
    assert AssistantBlocks([TextBlock("hi!")]) == [TextOut("hi!")];
  }
}
