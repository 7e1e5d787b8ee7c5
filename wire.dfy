/** The values that cross the WebSocket: decoded JSON, JSON-RPC 2.0 requests and
    responses, and the `message` notifications that carry one relayed event each. The
    envelope follows the JSON-RPC 2.0 Specification: a response carries exactly one of
    `result` and `error` and echoes the request's `id` (section 5), a notification has
    no `id` (section 4.1), and the error codes are those of section 5.1. */
module Wire {
  import opened Wrappers

  /** A JSON value as Python's `json.loads` produces it. A number written with a
      fraction or an exponent is a Python float and is carried as a real number. */
  datatype Json =
    | JNull
    | JBool(b: bool)
    | JInt(i: int)
    | JFloat(r: real)
    | JStr(s: string)
    | JArr(items: seq<Json>)
    | JObj(fields: map<string, Json>)

  /** Python truthiness: `None`, `False`, zero, and empty strings, lists and dicts
      are false; everything else is true. */
  predicate Truthy(j: Json) {
    match j
    case JNull => false
    case JBool(b) => b
    case JInt(i) => i != 0
    case JFloat(r) => r != 0.0
    case JStr(s) => s != ""
    case JArr(items) => items != []
    case JObj(fields) => fields != map[]
  }

  /** `d.get(key)` on a dict: the value, or `None` when the key is absent. */
  function Get(fields: map<string, Json>, key: string): Json {
    if key in fields then fields[key] else JNull
  }

  /** A request or response `id` (`Optional[Union[int, str]]`); `None` is the
      absent or null id. */
  datatype Id = IntId(n: int) | StrId(s: string)

  /** The validated request model (`JSONRPCRequest`). */
  datatype Request = Request(jsonrpc: string, methodName: string, params: Option<map<string, Json>>, id: Option<Id>)

  const PARSE_ERROR: int := -32700
  const METHOD_NOT_FOUND: int := -32601
  const INVALID_PARAMS: int := -32602
  const INTERNAL_ERROR: int := -32000

  /** The `data` member of an error object: absent, the text of an exception
      (`str(e)`), or the text of a request-model validation error, whose wording the
      validation library decides and the model does not spell out. */
  datatype ErrorData = NoData | Detail(text: string) | ValidationDetail

  datatype ErrorObject = ErrorObject(code: int, message: string, data: ErrorData)

  /** Exactly one of `result` and `error`. */
  datatype ResponseBody = Completed(turnCount: nat) | Failed(error: ErrorObject)

  /** A content block as relayed in a notification. */
  datatype OutBlock =
    | TextOut(text: string)
    | ToolUseOut(name: string, input: Json)
    | ToolResultOut(content: Json, isError: Json)

  /** The `params` of a `message` notification: `{"type": ..., "data": ...}`. */
  datatype Event =
    | AssistantEvent(turn: nat, content: seq<OutBlock>)
    | SystemEvent(model: Json, sessionId: Json, cwd: Json, tools: Json, permissionMode: Json)
    | UserEvent(content: seq<OutBlock>)
    | ResultEvent(numTurns: int, durationApiMs: int, durationMs: int, isError: bool, totalCostUsd: Json)
    | UnknownEvent

  /** The `type` member of an event. */
  function TypeTag(e: Event): string {
    match e
    case AssistantEvent(_, _) => "assistant"
    case SystemEvent(_, _, _, _, _) => "system"
    case UserEvent(_) => "user"
    case ResultEvent(_, _, _, _, _) => "result"
    case UnknownEvent => "unknown"
  }

  /** One text frame the server sends: a `message` notification, or a response. Both
      carry `"jsonrpc": "2.0"`. */
  datatype WireMsg =
    | Notification(params: Event)
    | Response(body: ResponseBody, id: Option<Id>)

  /** The number of responses in a stretch of output. */
  function ResponseCount(out: seq<WireMsg>): nat {
    if out == [] then 0 else ResponseCount(out[..|out| - 1]) + (if out[|out| - 1].Response? then 1 else 0)
  }

  lemma {:induction false} ResponseCountAppend(a: seq<WireMsg>, b: seq<WireMsg>)
    ensures ResponseCount(a + b) == ResponseCount(a) + ResponseCount(b)
  {
    if b != [] {
      assert (a + b)[..|a + b| - 1] == a + b[..|b| - 1];
      ResponseCountAppend(a, b[..|b| - 1]);
    } else {
      assert a + b == a;
    }
  }
}
