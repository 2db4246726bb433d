/** The FastAPI application (src/llm_wrapper/server/main.py and deps.py):
    the health and model-list endpoints, the system-prompt dependency, the
    chat-completion handler that dispatches on `stream`, and the exception
    handler that turns every `HTTPException` into the OpenAI error
    envelope. `ServeAsWritten` composes one POST /v1/chat/completions from
    raw JSON body to reply as the code stands, `Serve` with the corrected
    handler and relay. */
module Front {
  import opened Base
  import opened Strings
  import opened Dicts
  import opened Json
  import opened Errors
  import opened Requests
  import opened Routing
  import opened Payload
  import opened Completion
  import opened Relay

  /** What a client receives. */
  datatype Reply =
    | JsonReply(status: int, body: Json)
    | CompletionReply(response: ChatResponse)
    | StreamReply(run: StreamRun)
      /** FastAPI's own 422 for a body that fails request validation. */
    | ValidationReply(message: string)
      /** An exception no handler catches: the server's bare 500. */
    | CrashReply

  /** Everything the world outside the gateway contributes to one request:
      what the upstream does, `json.loads`/validation of its answers, and
      the clock and identifier used for a stream. */
  datatype Io = Io(
    upstream: Upstream,
    decodeBody: string -> Result<ChatResponse, string>,
    parse: string -> Option<Json>,
    uuidHex: string,
    created: int)

  const HealthBody: Json := JObj([("status", JStr("ok"))])

  datatype ModelData = ModelData(id: string, created: int)

  /** GET /v1/models: one entry per routed key, in table order, all stamped
      with the same request time. */
  function ListModels(table: Table, now: int): (r: seq<ModelData>)
    ensures |r| == |table|
    ensures forall i :: 0 <= i < |r| ==> r[i].id == Keys(table)[i] && r[i].created == now
  {
    if |table| == 0 then [] else [ModelData(table[0].0, now)] + ListModels(table[1..], now)
  }

  /** The `get_system_prompt` dependency: the routed configuration's prompt,
      empty when it has none; an unknown model fails here already. */
  function GetSystemPrompt(table: Table, req: ChatRequest): (r: Result<string, HttpError>)
    ensures r.Err? <==> GetConfigOrRaise(table, req.model).Err?
    ensures r.Err? ==> r.error == NotFound(table, req.model)
    ensures r.Ok? ==> r.value == GetConfigOrRaise(table, req.model).value.systemPrompt.GetOr("")
  {
    match GetConfigOrRaise(table, req.model)
    case Err(e) => Err(e)
    case Ok(cfg) => Ok(cfg.systemPrompt.GetOr(""))
  }

  /** The exception the handler raises for anything its `try` catches. */
  const InternalServerError: HttpError := HttpError(500, ValueDetail(JStr("Internal server error")))

  /** What the handler itself ends with. */
  datatype Handled = Completed(response: ChatResponse) | Streaming(run: StreamRun) | Raised(error: HttpError) | Crashed

  /** The trace attribute `messages[-1].content[:100]`, taken before the
      `try`, fails on a last message whose content is null. */
  predicate TraceCrashes(req: ChatRequest) {
    |req.messages| > 0 && req.messages[|req.messages| - 1].content.None?
  }

  /** `chat_completion` as written. */
  function ChatCompletionAsWritten(table: Table, req: ChatRequest, systemPrompt: string, io: Io): (r: Handled)
    ensures r.Crashed? <==> TraceCrashes(req)
    ensures !TraceCrashes(req) && Streams(req) ==>
      r == Streaming(StreamCompletion(table, req, systemPrompt, io.upstream, io.parse, io.uuidHex, io.created))
    ensures !TraceCrashes(req) && !Streams(req) ==>
      match CallCompletion(table, req, systemPrompt, io.upstream, io.decodeBody)
      case Ok(resp) => r == Completed(resp)
      case Err(_) => r == Raised(InternalServerError)
  {
    if TraceCrashes(req) then Crashed
    else if Streams(req) then Streaming(StreamCompletion(table, req, systemPrompt, io.upstream, io.parse, io.uuidHex, io.created))
    else
      match CallCompletion(table, req, systemPrompt, io.upstream, io.decodeBody)
      case Ok(resp) => Completed(resp)
      case Err(_) => Raised(InternalServerError)
  }

  /** The handler with the trace attribute tolerating null content and the
      corrected relay: it never crashes, and it agrees with the code as
      written wherever the latter does not crash and the stream can be
      prepared. */
  function ChatCompletion(table: Table, req: ChatRequest, systemPrompt: string, io: Io): (r: Handled)
    ensures !r.Crashed?
    ensures Streams(req) ==> r.Streaming? && r.run.complete && |r.run.frames| >= 2 && r.run.frames[|r.run.frames| - 1] == Done
    ensures !TraceCrashes(req) && !Streams(req) ==> r == ChatCompletionAsWritten(table, req, systemPrompt, io)
    ensures !TraceCrashes(req) && Streams(req) && Prepare(table, req, Some(systemPrompt)).Ok? ==>
      r == ChatCompletionAsWritten(table, req, systemPrompt, io)
  {
    if Streams(req) then Streaming(StreamCompletionCorrected(table, req, systemPrompt, io.upstream, io.parse, io.uuidHex, io.created))
    else
      match CallCompletion(table, req, systemPrompt, io.upstream, io.decodeBody)
      case Ok(resp) => Completed(resp)
      case Err(_) => Raised(InternalServerError)
  }

  /** A conversation ending in a message with null content (an assistant
      turn that only calls a tool, say) is a valid request, yet the handler
      as written crashes on it before doing anything; the corrected handler
      serves it. */
  lemma NullContentCrashes(table: Table, req: ChatRequest, systemPrompt: string, io: Io)
    requires |req.messages| > 0 && req.messages[|req.messages| - 1] == Message("assistant", None)
    ensures ChatCompletionAsWritten(table, req, systemPrompt, io) == Crashed
    ensures ChatCompletion(table, req, systemPrompt, io) != Crashed
  {
  }

  const ApiErrorType: Json := JStr("api_error")

  /** The `error` object of the envelope. */
  function ErrorObject(d: Detail): Dict<Json> {
    match d
    case DictDetail(fields) => Put(fields, "type", ApiErrorType)
    case ValueDetail(v) => [("message", JStr(Str(v))), ("type", ApiErrorType)]
  }

  /** The envelope always says `"type": "api_error"`; a dict detail keeps
      every other field (and its order), and any other detail becomes the
      `message` as text. */
  lemma {:induction false} ErrorObjectShape(d: Detail)
    ensures Find(ErrorObject(d), "type") == Some(ApiErrorType)
    ensures d.DictDetail? ==> forall k :: k != "type" ==> Find(ErrorObject(d), k) == Find(d.fields, k)
    ensures d.DictDetail? && "type" in Keys(d.fields) ==> Keys(ErrorObject(d)) == Keys(d.fields)
    ensures d.DictDetail? && "type" !in Keys(d.fields) ==> Keys(ErrorObject(d)) == Keys(d.fields) + ["type"]
    ensures d.ValueDetail? ==> Keys(ErrorObject(d)) == ["message", "type"]
    ensures d.ValueDetail? ==> Find(ErrorObject(d), "message") == Some(JStr(Str(d.value)))
    ensures d.DictDetail? && UniqueKeys(d.fields) ==> UniqueKeys(ErrorObject(d))
  {
    match d
    case DictDetail(fields) =>
      PutFind(fields, "type", ApiErrorType, "type");
      forall k | k != "type"
        ensures Find(ErrorObject(d), k) == Find(fields, k)
      {
        PutFind(fields, "type", ApiErrorType, k);
      }
      if UniqueKeys(fields) {
        PutKeepsUnique(fields, "type", ApiErrorType);
      }
    case ValueDetail(v) =>
      assert Keys(ErrorObject(d)) == ["message", "type"];
  }

  /** The `HTTPException` handler. */
  function OpenaiStyleError(e: HttpError): (r: Reply)
    ensures r.JsonReply? && r.status == e.status
    ensures r.body.JObj? && Keys(r.body.fields) == ["error"]
    ensures Find(r.body.fields, "error") == Some(JObj(ErrorObject(e.detail)))
  {
    JsonReply(e.status, JObj([("error", JObj(ErrorObject(e.detail)))]))
  }

  /** How a handler outcome reaches the client. */
  function Respond(h: Handled): Reply {
    match h
    case Completed(resp) => CompletionReply(resp)
    case Streaming(run) => StreamReply(run)
    case Raised(e) => OpenaiStyleError(e)
    case Crashed => CrashReply
  }

  /** Body validation: the before-validator, then the schema (`toRequest`). */
  function Admit(raw: Json, toRequest: Json -> Result<ChatRequest, string>): (r: Result<ChatRequest, string>)
    ensures ValidateFunctionsAndTools(raw).Err? ==> r == Err(BothFunctionsAndTools)
    ensures ValidateFunctionsAndTools(raw).Ok? ==> r == toRequest(raw)
  {
    match ValidateFunctionsAndTools(raw)
    case Err(m) => Err(m)
    case Ok(data) => toRequest(data)
  }

  /** The system prompt the handler gets: the installed replacement for
      the dependency, or the dependency itself. */
  function Prompt(table: Table, req: ChatRequest, override: Option<string>): (r: Result<string, HttpError>)
    ensures override.Some? ==> r == Ok(override.value)
    ensures override.None? ==> r == GetSystemPrompt(table, req)
  {
    if override.Some? then Ok(override.value) else GetSystemPrompt(table, req)
  }

  /** What FastAPI does before the handler runs: validate the body, then
      resolve the dependencies. Either a reply is already decided, or the
      handler gets the request and its system prompt. */
  function Prelude(raw: Json, toRequest: Json -> Result<ChatRequest, string>, table: Table,
                   override: Option<string>): (r: Result<(ChatRequest, string), Reply>)
    ensures r.Ok? <==> Admit(raw, toRequest).Ok? && Prompt(table, Admit(raw, toRequest).value, override).Ok?
    ensures r.Ok? ==> r.value == (Admit(raw, toRequest).value, Prompt(table, Admit(raw, toRequest).value, override).value)
    ensures Admit(raw, toRequest).Err? ==> r == Err(ValidationReply(Admit(raw, toRequest).error))
    ensures Admit(raw, toRequest).Ok? && Prompt(table, Admit(raw, toRequest).value, override).Err? ==>
      r == Err(OpenaiStyleError(Prompt(table, Admit(raw, toRequest).value, override).error))
  {
    match Admit(raw, toRequest)
    case Err(m) => Err(ValidationReply(m))
    case Ok(req) =>
      match Prompt(table, req, override)
      case Err(e) => Err(OpenaiStyleError(e))
      case Ok(p) => Ok((req, p))
  }

  /** POST /v1/chat/completions as written, from raw body to reply:
      Starlette's bare 500 exactly when a request that passes the
      dependencies ends in a message with null content, and a stream that
      ends without any frame exactly when the request cannot be prepared. */
  function ServeAsWritten(raw: Json, toRequest: Json -> Result<ChatRequest, string>, table: Table,
                          override: Option<string>, io: Io): (r: Reply)
    ensures Admit(raw, toRequest).Err? ==> r == ValidationReply(Admit(raw, toRequest).error)
    ensures Admit(raw, toRequest).Ok? && override.None? && GetConfigOrRaise(table, Admit(raw, toRequest).value.model).Err? ==>
      r == OpenaiStyleError(NotFound(table, Admit(raw, toRequest).value.model))
    ensures r == CrashReply <==>
      Prelude(raw, toRequest, table, override).Ok? && TraceCrashes(Prelude(raw, toRequest, table, override).value.0)
    ensures Prelude(raw, toRequest, table, override).Ok? ==>
      var (req, p) := Prelude(raw, toRequest, table, override).value;
      && (!TraceCrashes(req) && Streams(req) ==> r.StreamReply? && (r.run.complete <==> Prepare(table, req, Some(p)).Ok?))
      && (r.StreamReply? && !r.run.complete ==> r.run.frames == [])
  {
    match Prelude(raw, toRequest, table, override)
    case Err(reply) => reply
    case Ok((req, p)) => Respond(ChatCompletionAsWritten(table, req, p, io))
  }

  /** POST /v1/chat/completions with the corrected handler and relay. */
  function Serve(raw: Json, toRequest: Json -> Result<ChatRequest, string>, table: Table,
                 override: Option<string>, io: Io): (r: Reply)
    ensures Admit(raw, toRequest).Err? ==> r == ValidationReply(Admit(raw, toRequest).error)
    ensures Admit(raw, toRequest).Ok? && override.None? && GetConfigOrRaise(table, Admit(raw, toRequest).value.model).Err? ==>
      r == OpenaiStyleError(NotFound(table, Admit(raw, toRequest).value.model))
    ensures r != CrashReply
  {
    match Prelude(raw, toRequest, table, override)
    case Err(reply) => reply
    case Ok((req, p)) => Respond(ChatCompletion(table, req, p, io))
  }

  /** The corrected composition answers every request as the code as
      written does, except the two the findings name: a null last content,
      and a stream that cannot be prepared. */
  lemma ServeAgreesAsWritten(raw: Json, toRequest: Json -> Result<ChatRequest, string>, table: Table,
                             override: Option<string>, io: Io)
    requires Prelude(raw, toRequest, table, override).Ok? ==>
      var (req, p) := Prelude(raw, toRequest, table, override).value;
      !TraceCrashes(req) && (Streams(req) ==> Prepare(table, req, Some(p)).Ok?)
    ensures Serve(raw, toRequest, table, override, io) == ServeAsWritten(raw, toRequest, table, override, io)
  {
  }

  /** A body declaring both `functions` and `tools` is refused by validation
      before any routing or upstream call. */
  lemma ServeRefusesFunctionsAndTools(fields: Dict<Json>, toRequest: Json -> Result<ChatRequest, string>, table: Table,
                                      override: Option<string>, io: Io)
    requires KeyTruthy(fields, "functions") && KeyTruthy(fields, "tools")
    ensures Serve(JObj(fields), toRequest, table, override, io) == ValidationReply(BothFunctionsAndTools)
  {
  }

  /** An unknown model gets a 404 envelope naming it and the routed models. */
  lemma ServeUnknownModel(raw: Json, toRequest: Json -> Result<ChatRequest, string>, table: Table, io: Io, req: ChatRequest)
    requires Admit(raw, toRequest) == Ok(req)
    requires req.model !in Keys(table)
    ensures Serve(raw, toRequest, table, None, io) == JsonReply(404, JObj([("error", JObj([
      ("message", JStr(NotFoundMessage(req.model, Keys(table)))), ("type", ApiErrorType)]))]))
  {
    var fields := [("message", JStr(NotFoundMessage(req.model, Keys(table))))];
    assert Put(fields, "type", ApiErrorType) == fields + [("type", ApiErrorType)];
    assert Serve(raw, toRequest, table, None, io) == OpenaiStyleError(NotFound(table, req.model));
    assert fields + [("type", ApiErrorType)] == [fields[0], ("type", ApiErrorType)];
  }

  /** With the corrected handler, every failure of the non-streaming path
      after the dependencies, a missing user message included, reaches the
      client as the same 500 envelope; the upstream's own status and text
      do not. (As written, the same holds unless the last content is null.) */
  lemma ServeBlockingFailureIs500(raw: Json, toRequest: Json -> Result<ChatRequest, string>, table: Table,
                                  override: Option<string>, io: Io, req: ChatRequest, prompt: string)
    requires Admit(raw, toRequest) == Ok(req) && !Streams(req)
    requires Prompt(table, req, override) == Ok(prompt)
    requires CallCompletion(table, req, prompt, io.upstream, io.decodeBody).Err?
    ensures Serve(raw, toRequest, table, override, io) == JsonReply(500, JObj([("error", JObj([
      ("message", JStr("Internal server error")), ("type", ApiErrorType)]))]))
  {
    assert ChatCompletion(table, req, prompt, io) == Raised(InternalServerError);
    assert Str(JStr("Internal server error")) == "Internal server error";
  }

  /** With the corrected handler and relay, a streaming request that passes
      the dependencies always gets an event stream that starts with the role
      announcement and ends with `[DONE]`. */
  lemma ServeStreamAlwaysTerminates(raw: Json, toRequest: Json -> Result<ChatRequest, string>, table: Table,
                                    override: Option<string>, io: Io, req: ChatRequest, prompt: string)
    requires Admit(raw, toRequest) == Ok(req) && Streams(req)
    requires Prompt(table, req, override) == Ok(prompt)
    ensures var r := Serve(raw, toRequest, table, override, io);
      && r.StreamReply?
      && r.run.frames[0] == Data(RoleChunk(io.uuidHex, io.created, req.model))
      && CountDone(r.run.frames) == 1
      && r.run.frames[|r.run.frames| - 1] == Done
  {
    var run := StreamCompletionCorrected(table, req, prompt, io.upstream, io.parse, io.uuidHex, io.created);
    ServeReachesHandler(raw, toRequest, table, override, io, req, prompt);
    assert ChatCompletion(table, req, prompt, io) == Streaming(run);
    OneSentinel(run.frames);
  }

  /** Past validation and the dependencies, the reply is the handler's. */
  lemma ServeReachesHandler(raw: Json, toRequest: Json -> Result<ChatRequest, string>, table: Table,
                            override: Option<string>, io: Io, req: ChatRequest, prompt: string)
    requires Admit(raw, toRequest) == Ok(req)
    requires Prompt(table, req, override) == Ok(prompt)
    ensures Serve(raw, toRequest, table, override, io) == Respond(ChatCompletion(table, req, prompt, io))
  {
  }
}
