/** The per-connection loop of `websocket_endpoint`: receive a frame, decode it,
    validate it as a request, dispatch on the method name, repeat. The connection is
    an input trace of frames, each paired with what the environment will do if that
    frame starts a prompt, and an output sequence of sent messages. The trace ends
    where the peer disconnects, which ends the loop normally; any other exception that
    reaches the loop ends it too, without a response. */
module Session {
  import opened Wrappers
  import opened Wire
  import opened Relay

  /** A received text frame after `json.loads`: not JSON at all, or a JSON value. */
  datatype Frame = Malformed | Decoded(value: Json)

  datatype Inbound = Inbound(frame: Frame, env: PromptEnv)

  /** Why the loop stopped: the peer disconnected after the last frame of the trace,
      or an exception other than a disconnect escaped the loop. */
  datatype Ending = Disconnected | Aborted

  datatype SessionResult = SessionResult(sent: seq<WireMsg>, processed: nat, ending: Ending)

  const MethodNotFoundError := ErrorObject(METHOD_NOT_FOUND, "Method not found", NoData)
  const ParseErrorObject := ErrorObject(PARSE_ERROR, "Parse error", ValidationDetail)

  /** Validation of an `id` value against `Optional[Union[int, str]]` in the
      validation library's lax mode: null, integers and strings as they are, booleans
      and integral floats as integers; anything else fails (`None`). */
  function IdOf(v: Json): (r: Option<Option<Id>>)
    ensures v.JNull? ==> r == Some(None)
    ensures v.JInt? ==> r == Some(Some(IntId(v.i)))
    ensures v.JStr? ==> r == Some(Some(StrId(v.s)))
    ensures (v.JArr? || v.JObj?) ==> r.None?
  {
    match v
    case JNull => Some(None)
    case JInt(n) => Some(Some(IntId(n)))
    case JStr(s) => Some(Some(StrId(s)))
    case JBool(b) => Some(Some(IntId(if b then 1 else 0)))
    case JFloat(x) => if x == x.Floor as real then Some(Some(IntId(x.Floor))) else None
    case _ => None
  }

  /** `JSONRPCRequest(**request_data)`: `jsonrpc` a string (default "2.0"), `method`
      a required string, `params` null or a dict, `id` as IdOf says; other keys are
      ignored. `None` is a validation error. */
  function Validate(fields: map<string, Json>): (r: Option<Request>)
    ensures r.Some? <==>
      && ("jsonrpc" in fields ==> fields["jsonrpc"].JStr?)
      && "method" in fields && fields["method"].JStr?
      && ("params" in fields ==> fields["params"].JNull? || fields["params"].JObj?)
      && IdOf(Get(fields, "id")).Some?
    ensures r.Some? ==>
      && r.value.methodName == fields["method"].s
      && r.value.id == IdOf(Get(fields, "id")).value
      && (r.value.params.Some? <==> "params" in fields && fields["params"].JObj?)
      && (r.value.params.Some? ==> r.value.params.value == fields["params"].fields)
  {
    var jsonrpc := if "jsonrpc" !in fields then Some("2.0")
                   else if fields["jsonrpc"].JStr? then Some(fields["jsonrpc"].s) else None;
    var methodName := if "method" in fields && fields["method"].JStr? then Some(fields["method"].s) else None;
    var params := if "params" !in fields || fields["params"].JNull? then Some(None)
                  else if fields["params"].JObj? then Some(Some(fields["params"].fields)) else None;
    var id := IdOf(Get(fields, "id"));
    if jsonrpc.Some? && methodName.Some? && params.Some? && id.Some?
    then Some(Request(jsonrpc.value, methodName.value, params.value, id.value))
    else None
  }

  /** Specification of one iteration of the loop body. */
  function Dispatch(frame: Frame, env: PromptEnv): Reply {
    match frame
    case Malformed => Reply([], true)
    case Decoded(v) =>
      if !v.JObj? then Reply([], true)
      else match Validate(v.fields)
        case Some(req) =>
          if req.methodName == "prompt" then Relayed(req, env)
          else Reply([Response(Failed(MethodNotFoundError), req.id)], false)
        case None =>
          match IdOf(Get(v.fields, "id"))
          case Some(id) => Reply([Response(Failed(ParseErrorObject), id)], false)
          case None => Reply([], true)
  }

  /** Specification of the whole loop over a trace of frames. */
  function RunSession(ins: seq<Inbound>): SessionResult {
    if ins == [] then SessionResult([], 0, Disconnected)
    else
      var r := Dispatch(ins[0].frame, ins[0].env);
      if r.escaped then SessionResult(r.sent, 1, Aborted)
      else
        var rest := RunSession(ins[1..]);
        SessionResult(r.sent + rest.sent, rest.processed + 1, rest.ending)
  }

  /** `s` after `sent` has already gone out and `done` frames have been handled. */
  function After(sent: seq<WireMsg>, done: nat, s: SessionResult): SessionResult {
    SessionResult(sent + s.sent, done + s.processed, s.ending)
  }

  /** One iteration of the loop body: the messages it sends for a frame, and whether
      an exception escapes it. It takes the branches of `Dispatch`, the function that
      specifies it, one for one. */
  method HandleFrame(frame: Frame, env: PromptEnv) returns (out: seq<WireMsg>, fatal: bool)
    ensures Reply(out, fatal) == Dispatch(frame, env)
  {
    out, fatal := [], false;
    if frame.Malformed? {
      // json.loads raises outside the guarded block.
      fatal := true;
    } else if !frame.value.JObj? {
      // JSONRPCRequest(**data) raises, and so does data.get("id") in the handler.
      fatal := true;
    } else {
      var fields := frame.value.fields;
      var parsed := Validate(fields);
      if parsed.None? {
        var id := IdOf(Get(fields, "id"));
        if id.None? {
          // JSONRPCResponse(id=...) rejects the id inside the handler.
          fatal := true;
        } else {
          out := [Response(Failed(ParseErrorObject), id.value)];
        }
      } else if parsed.value.methodName == "prompt" {
        out, fatal := HandlePrompt(parsed.value, env);
      } else {
        out := [Response(Failed(MethodNotFoundError), parsed.value.id)];
      }
    }
  }

  /** What is sent before a step and by the step itself are sent in that order. */
  lemma AfterAfter(sent: seq<WireMsg>, done: nat, out: seq<WireMsg>, s: SessionResult)
    ensures After(sent, done, After(out, 1, s)) == After(sent + out, done + 1, s)
  {
    assert sent + (out + s.sent) == (sent + out) + s.sent;
  }

  /** `websocket_endpoint`. */
  method SessionLoop(ins: seq<Inbound>) returns (sent: seq<WireMsg>, processed: nat, ending: Ending)
    ensures SessionResult(sent, processed, ending) == RunSession(ins)
  {
    sent := [];
    var i := 0;
    assert ins[0..] == ins;
    while i < |ins|
      invariant 0 <= i <= |ins|
      invariant RunSession(ins) == After(sent, i, RunSession(ins[i..]))
    {
      var out, fatal := HandleFrame(ins[i].frame, ins[i].env);
      assert RunSession(ins[i..]) ==
        if fatal then SessionResult(out, 1, Aborted) else After(out, 1, RunSession(ins[i + 1..])) by {
        RunSessionStep(ins[i..]);
        assert ins[i..][0] == ins[i] && ins[i..][1..] == ins[i + 1..];
      }
      if fatal {
        sent, processed, ending := sent + out, i + 1, Aborted;
        return;
      }
      AfterAfter(sent, i, out, RunSession(ins[i + 1..]));
      sent := sent + out;
      i := i + 1;
    }
    assert ins[i..] == [];
    processed, ending := |ins|, Disconnected;
  }

  // ---------------------------------------------------------------------------
  // Properties of the loop

  /** One iteration either raises, having sent nothing, or sends exactly one
      response, as its last message. */
  lemma DispatchAnswersOnce(frame: Frame, env: PromptEnv)
    ensures var r := Dispatch(frame, env);
      && (r.escaped ==> r.sent == [])
      && (!r.escaped ==> ResponseCount(r.sent) == 1 && r.sent != [] && r.sent[|r.sent| - 1].Response?)
  {
    if frame.Decoded? && frame.value.JObj? {
      var parsed := Validate(frame.value.fields);
      if parsed.Some? && parsed.value.methodName == "prompt" {
        RelayAnswersOnce(parsed.value, env);
      } else {
        var r := Dispatch(frame, env);
        if !r.escaped {
          assert r.sent == [] + [r.sent[0]];
        }
      }
    }
  }

  /** The loop stops only at the first frame whose handling raises, and handles every
      frame when none does. */
  lemma {:induction false} SessionStopsAtFirstEscape(ins: seq<Inbound>)
    ensures var r := RunSession(ins);
      && r.processed <= |ins|
      && (forall k :: 0 <= k < r.processed - 1 ==> !Dispatch(ins[k].frame, ins[k].env).escaped)
      && (r.ending == Aborted <==> r.processed >= 1 && Dispatch(ins[r.processed - 1].frame, ins[r.processed - 1].env).escaped)
      && (r.ending == Disconnected ==> r.processed == |ins|)
  {
    if ins != [] {
      var d := Dispatch(ins[0].frame, ins[0].env);
      if !d.escaped {
        SessionStopsAtFirstEscape(ins[1..]);
        var rest := RunSession(ins[1..]);
        assert forall k :: 1 <= k < |ins| ==> ins[1..][k - 1] == ins[k];
      }
    }
  }

  /** Every frame of a session that ends by disconnecting gets exactly one response. */
  lemma {:induction false} SessionAnswersEveryFrame(ins: seq<Inbound>)
    requires RunSession(ins).ending == Disconnected
    ensures RunSession(ins).processed == |ins|
    ensures ResponseCount(RunSession(ins).sent) == |ins|
  {
    if ins != [] {
      var d := Dispatch(ins[0].frame, ins[0].env);
      DispatchAnswersOnce(ins[0].frame, ins[0].env);
      SessionAnswersEveryFrame(ins[1..]);
      ResponseCountAppend(d.sent, RunSession(ins[1..]).sent);
    }
  }

  /** Requests are handled strictly one after the other: everything sent for the
      frames `ins` precedes everything sent for the frames after them. */
  lemma {:induction false} SessionSequential(ins: seq<Inbound>, more: seq<Inbound>)
    requires RunSession(ins).ending == Disconnected
    ensures RunSession(ins + more) == After(RunSession(ins).sent, |ins|, RunSession(more))
  {
    if ins == [] {
      assert ins + more == more;
    } else {
      var both := ins + more;
      assert both[0] == ins[0] && both[1..] == ins[1..] + more;
      var d := Dispatch(ins[0].frame, ins[0].env);
      var r1 := RunSession(ins[1..]);
      var m := RunSession(more);
      assert !d.escaped && RunSession(ins) == After(d.sent, 1, r1) by {
        RunSessionStep(ins);
      }
      assert RunSession(ins[1..] + more) == After(r1.sent, |ins| - 1, m) by {
        SessionSequential(ins[1..], more);
        SessionAnswersEveryFrame(ins[1..]);
      }
      assert RunSession(both) == After(d.sent, 1, RunSession(ins[1..] + more)) by {
        RunSessionStep(both);
      }
      assert d.sent + (r1.sent + m.sent) == (d.sent + r1.sent) + m.sent;
    }
  }

  /** One unfolding of the loop specification. */
  lemma RunSessionStep(ins: seq<Inbound>)
    requires ins != []
    ensures var d := Dispatch(ins[0].frame, ins[0].env);
      RunSession(ins) == if d.escaped then SessionResult(d.sent, 1, Aborted) else After(d.sent, 1, RunSession(ins[1..]))
  {
  }

  /** Once an exception has escaped, later frames are never read. */
  lemma {:induction false} SessionIgnoresAfterAbort(ins: seq<Inbound>, more: seq<Inbound>)
    requires RunSession(ins).ending == Aborted
    ensures RunSession(ins + more) == RunSession(ins)
  {
    assert ins != [];
    assert (ins + more)[0] == ins[0] && (ins + more)[1..] == ins[1..] + more;
    if !Dispatch(ins[0].frame, ins[0].env).escaped {
      SessionIgnoresAfterAbort(ins[1..], more);
    }
  }

  /** An object that fails request validation but carries a valid id gets one -32700
      response echoing that id, and the loop goes on to the next frame. */
  lemma ParseErrorContinues(fields: map<string, Json>, env: PromptEnv, rest: seq<Inbound>)
    requires Validate(fields).None? && IdOf(Get(fields, "id")).Some?
    ensures var ins := [Inbound(Decoded(JObj(fields)), env)] + rest;
      RunSession(ins) ==
        After([Response(Failed(ErrorObject(-32700, "Parse error", ValidationDetail)), IdOf(Get(fields, "id")).value)],
              1, RunSession(rest))
  {
    var ins := [Inbound(Decoded(JObj(fields)), env)] + rest;
    assert ins[0] == Inbound(Decoded(JObj(fields)), env) && ins[1..] == rest;
  }

  /** A method other than "prompt" gets one -32601 response with the request's id and
      no prompt is started: the environment is never consulted. */
  lemma MethodNotFound(fields: map<string, Json>, env: PromptEnv, other: PromptEnv)
    requires Validate(fields).Some? && Validate(fields).value.methodName != "prompt"
    ensures Dispatch(Decoded(JObj(fields)), env) == Dispatch(Decoded(JObj(fields)), other)
    ensures Dispatch(Decoded(JObj(fields)), env) ==
      Reply([Response(Failed(ErrorObject(-32601, "Method not found", NoData)), Validate(fields).value.id)], false)
  {
  }

  /** As written, a frame that is not JSON is not answered with -32700: decoding
      raises before the guarded block, nothing is sent and the loop ends. */
  lemma MalformedFrameEndsSession(env: PromptEnv, rest: seq<Inbound>)
    ensures RunSession([Inbound(Malformed, env)] + rest) == SessionResult([], 1, Aborted)
  {
    assert ([Inbound(Malformed, env)] + rest)[0] == Inbound(Malformed, env);
  }

  /** A prompt request is handled by the relay with the request the frame decodes to. */
  lemma PromptIsRelayed(fields: map<string, Json>, env: PromptEnv)
    requires Validate(fields).Some? && Validate(fields).value.methodName == "prompt"
    ensures Dispatch(Decoded(JObj(fields)), env) == Relayed(Validate(fields).value, env)
  {
  }
}
